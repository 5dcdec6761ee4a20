/**
 * The bounded worker pool. Workers share one cursor; each takes the next defined item, awaits
 * its callback, and takes again, until the list is used up. A schedule is the order in which
 * callbacks settle, thrown or not.
 */
module WorkerPool {
  import opened Wrappers
  import opened Tally

  /** `started` and `settled` are history. */
  datatype Pool = Pool(cursor: nat, running: seq<Option<nat>>, started: seq<nat>, settled: multiset<nat>)

  function WorkerCount(limit: int, items: nat): nat { Max(1, Min(limit, items)) }

  /** The first defined index at or after the cursor. */
  function NextDefined<T>(items: seq<Option<T>>, cursor: nat): (k: nat)
    requires cursor <= |items|
    ensures cursor <= k <= |items| && (k < |items| ==> items[k].Some?)
    ensures forall i :: cursor <= i < k ==> items[i].None?
    decreases |items| - cursor
  {
    if cursor == |items| || items[cursor].Some? then cursor else NextDefined(items, cursor + 1)
  }

  /** A worker takes its next item, or finds none and returns. */
  function Take<T>(items: seq<Option<T>>, s: Pool, w: nat): (r: Pool)
    requires s.cursor <= |items| && w < |s.running|
    ensures s.cursor <= r.cursor <= |items|
  {
    var k := NextDefined(items, s.cursor);
    if k == |items| then s.(cursor := k, running := s.running[w := None])
    else s.(cursor := k + 1, running := s.running[w := Some(k)], started := s.started + [k])
  }

  function StartFrom<T>(items: seq<Option<T>>, s: Pool, w: nat): (r: Pool)
    requires s.cursor <= |items| && w <= |s.running|
    ensures s.cursor <= r.cursor <= |items|
    decreases |s.running| - w
  {
    if w == |s.running| then s else StartFrom(items, Take(items, s, w), w + 1)
  }

  /** An empty list starts no worker at all. */
  function Begin<T>(items: seq<Option<T>>, limit: int): (r: Pool)
    ensures r.cursor <= |items|
  {
    if items == [] then Pool(0, [], [], multiset{})
    else StartFrom(items, Pool(0, seq(WorkerCount(limit, |items|), _ => None), [], multiset{}), 0)
  }

  predicate CanSettle(s: Pool, w: nat) { w < |s.running| && s.running[w].Some? }

  /** The callback of worker `w` settles, and the worker takes again in the same step. */
  function Settle<T>(items: seq<Option<T>>, s: Pool, w: nat): Pool
    requires s.cursor <= |items| && CanSettle(s, w)
  {
    Take(items, s.(settled := s.settled + multiset{s.running[w].value}), w)
  }

  /** The promise the pool returns is resolved. */
  predicate Resolved(s: Pool) { forall r <- s.running :: r.None? }

  predicate Legal<T>(items: seq<Option<T>>, s: Pool, schedule: seq<nat>)
    requires s.cursor <= |items|
    decreases |schedule|
  {
    schedule == [] || (CanSettle(s, schedule[0]) && Legal(items, Settle(items, s, schedule[0]), schedule[1..]))
  }

  function After<T>(items: seq<Option<T>>, s: Pool, schedule: seq<nat>): Pool
    requires s.cursor <= |items| && Legal(items, s, schedule)
    decreases |schedule|
  {
    if schedule == [] then s else After(items, Settle(items, s, schedule[0]), schedule[1..])
  }

  // ---------------------------------------------------------------------------------
  // The invariant.

  /** The indices of the defined items below `upto`, in order. */
  function Defined<T>(items: seq<Option<T>>, upto: nat): seq<nat>
    requires upto <= |items|
  {
    if upto == 0 then []
    else Defined(items, upto - 1) + if items[upto - 1].Some? then [upto - 1] else []
  }

  /** The item a worker has in flight. */
  function Holds(r: Option<nat>): Option<nat> { r }

  function InFlight(running: seq<Option<nat>>): nat { Total(running, Holds) }

  lemma {:induction false} InFlightBounded(running: seq<Option<nat>>)
    ensures InFlight(running) <= |running|
    ensures (forall r <- running :: r.None?) <==> InFlight(running) == 0
  {
    if running != [] {
      var init, last := running[..|running| - 1], running[|running| - 1];
      InFlightBounded(init);
      assert last in running && running == init + [last];
    }
  }

  lemma {:induction false} DefinedAcrossGap<T>(items: seq<Option<T>>, lo: nat, hi: nat)
    requires lo <= hi <= |items| && forall i :: lo <= i < hi ==> items[i].None?
    ensures Defined(items, hi) == Defined(items, lo)
    decreases hi
  {
    if lo != hi { DefinedAcrossGap(items, lo, hi - 1); }
  }

  /** Started is settled or in flight, item by item and in number. */
  ghost predicate Accounted(started: seq<nat>, settled: multiset<nat>, running: seq<Option<nat>>) {
    && |started| == |settled| + InFlight(running)
    && forall k: nat :: multiset(started)[k] == settled[k] + Count(running, Holds, k)
  }

  ghost predicate Inv<T>(items: seq<Option<T>>, s: Pool) {
    s.cursor <= |items| && s.started == Defined(items, s.cursor) && Accounted(s.started, s.settled, s.running)
  }

  /** A worker swaps what it held for `next`: the old item settles, the new one starts. */
  lemma SwapKeepsAccounts(started: seq<nat>, settled: multiset<nat>, running: seq<Option<nat>>, w: nat,
                          next: Option<nat>)
    requires Accounted(started, settled, running) && w < |running|
    ensures Accounted(if next.Some? then started + [next.value] else started,
                      if running[w].Some? then settled + multiset{running[w].value} else settled,
                      running[w := next])
  {
    TotalUpdate(running, w, next, Holds);
    forall k: nat ensures Count(running[w := next], Holds, k)
                          == Count(running, Holds, k) - One(running[w] == Some(k)) + One(next == Some(k))
    {
      CountUpdate(running, w, next, Holds, k);
    }
  }

  /** No worker below `upto` is idle while items are left. */
  ghost predicate Busy<T>(items: seq<Option<T>>, s: Pool, upto: nat)
    requires upto <= |s.running|
  {
    s.cursor < |items| ==> forall w :: 0 <= w < upto ==> s.running[w].Some?
  }

  /** What a worker takes is the next defined item, if there is one. */
  lemma TakeIsNext<T>(items: seq<Option<T>>, s: Pool, w: nat) returns (next: Option<nat>)
    requires s.cursor <= |items| && s.started == Defined(items, s.cursor) && w < |s.running|
    ensures var to := Take(items, s, w);
            && to.cursor <= |items| && to.started == Defined(items, to.cursor)
            && to.running == s.running[w := next] && to.settled == s.settled
            && to.started == (if next.Some? then s.started + [next.value] else s.started)
            && (next.None? ==> to.cursor == |items|)
  {
    var k := NextDefined(items, s.cursor);
    DefinedAcrossGap(items, s.cursor, k);
    next := if k == |items| then None else Some(k);
  }

  /** Whatever the worker held settles, and it takes again. */
  lemma TakeKeepsInv<T>(items: seq<Option<T>>, s: Pool, settled: multiset<nat>, w: nat)
    requires Inv(items, s) && w < |s.running|
    requires settled == if s.running[w].Some? then s.settled + multiset{s.running[w].value} else s.settled
    ensures Inv(items, Take(items, s.(settled := settled), w))
  {
    var next := TakeIsNext(items, s.(settled := settled), w);
    SwapKeepsAccounts(s.started, s.settled, s.running, w, next);
  }

  lemma {:induction false} StartKeepsInv<T>(items: seq<Option<T>>, s: Pool, w: nat)
    requires Inv(items, s) && w <= |s.running| && Busy(items, s, w)
    requires forall i :: w <= i < |s.running| ==> s.running[i].None?
    ensures var to := StartFrom(items, s, w);
            Inv(items, to) && Busy(items, to, |to.running|) && |to.running| == |s.running| && to.settled == s.settled
    decreases |s.running| - w
  {
    if w < |s.running| {
      TakeKeepsInv(items, s, s.settled, w);
      var next := TakeIsNext(items, s, w);
      StartKeepsInv(items, Take(items, s, w), w + 1);
    }
  }

  lemma SettleKeepsInv<T>(items: seq<Option<T>>, s: Pool, w: nat)
    requires Inv(items, s) && Busy(items, s, |s.running|) && CanSettle(s, w)
    ensures var to := Settle(items, s, w);
            && Inv(items, to) && |to.running| == |s.running| && Busy(items, to, |to.running|)
            && |to.settled| == |s.settled| + 1
  {
    var settled := s.settled + multiset{s.running[w].value};
    TakeKeepsInv(items, s, settled, w);
    var next := TakeIsNext(items, s.(settled := settled), w);
  }

  lemma BeginHolds<T>(items: seq<Option<T>>, limit: int)
    ensures var s := Begin(items, limit);
            && Inv(items, s) && Busy(items, s, |s.running|) && s.settled == multiset{}
            && |s.running| == if items == [] then 0 else WorkerCount(limit, |items|)
  {
    if items != [] {
      var s := Pool(0, seq(WorkerCount(limit, |items|), _ => None), [], multiset{});
      InFlightBounded(s.running);
      forall k: nat ensures Count(s.running, Holds, k) == 0 { CountZero(s.running, Holds, k); }
      StartKeepsInv(items, s, 0);
    }
  }

  lemma {:induction false} RunKeepsInv<T>(items: seq<Option<T>>, s: Pool, schedule: seq<nat>)
    requires Inv(items, s) && Busy(items, s, |s.running|) && Legal(items, s, schedule)
    ensures var to := After(items, s, schedule);
            && Inv(items, to) && |to.running| == |s.running| && Busy(items, to, |to.running|)
            && |to.settled| == |s.settled| + |schedule|
    decreases |schedule|
  {
    if schedule != [] {
      SettleKeepsInv(items, s, schedule[0]);
      RunKeepsInv(items, Settle(items, s, schedule[0]), schedule[1..]);
    }
  }

  // ---------------------------------------------------------------------------------
  // The theorems, for every list, limit and schedule.

  lemma {:induction false} DefinedIsIncreasing<T>(items: seq<Option<T>>, upto: nat)
    requires upto <= |items|
    ensures forall i, j :: 0 <= i < j < |Defined(items, upto)| ==> Defined(items, upto)[i] < Defined(items, upto)[j]
    ensures forall k :: k in Defined(items, upto) <==> 0 <= k < upto && items[k].Some?
  {
    if upto > 0 {
      DefinedIsIncreasing(items, upto - 1);
      var init := Defined(items, upto - 1);
      assert forall i :: 0 <= i < |init| ==> init[i] in init;
    }
  }

  /**
   * Items start in index order, each defined one at most once and none skipped; never more than the
   * limit are in flight.
   */
  lemma StartedInOrderWithinTheLimit<T>(items: seq<Option<T>>, limit: int, schedule: seq<nat>)
    requires Legal(items, Begin(items, limit), schedule)
    ensures var s := After(items, Begin(items, limit), schedule);
            && s.cursor <= |items|
            && (forall i, j :: 0 <= i < j < |s.started| ==> s.started[i] < s.started[j])
            && (forall k :: k in s.started <==> 0 <= k < s.cursor && items[k].Some?)
            && InFlight(s.running) <= Max(1, Min(limit, |items|))
            && (s.cursor < |items| ==> |s.running| == Max(1, Min(limit, |items|)) && forall r <- s.running :: r.Some?)
  {
    BeginHolds(items, limit);
    RunKeepsInv(items, Begin(items, limit), schedule);
    var s := After(items, Begin(items, limit), schedule);
    DefinedIsIncreasing(items, s.cursor);
    InFlightBounded(s.running);
  }

  lemma ResolvedUsesUpTheList<T>(items: seq<Option<T>>, s: Pool)
    requires Inv(items, s) && Busy(items, s, |s.running|) && Resolved(s) && (items == [] || s.running != [])
    ensures s.cursor == |items| && s.settled == multiset(Defined(items, |items|))
  {
    if items != [] { assert s.running[0].None?; }
    forall k: nat ensures s.settled[k] == multiset(s.started)[k] { CountZero(s.running, Holds, k); }
  }

  lemma UnresolvedHasOneInFlight<T>(items: seq<Option<T>>, s: Pool)
    requires Inv(items, s) && !Resolved(s)
    ensures |s.settled| < |Defined(items, |items|)| && exists w :: CanSettle(s, w)
  {
    InFlightBounded(s.running);
    DefinedGrows(items, s.cursor, |items|);
    var r :| r in s.running && r.Some?;
    var w :| 0 <= w < |s.running| && s.running[w] == r;
    assert CanSettle(s, w);
  }

  /**
   * The pool resolves exactly when every defined item has settled, which takes exactly as many
   * settlements as there are defined items, in any order; until then some callback is in flight.
   */
  lemma ResolvesExactlyWhenAllSettled<T>(items: seq<Option<T>>, limit: int, schedule: seq<nat>)
    requires Legal(items, Begin(items, limit), schedule)
    ensures var s := After(items, Begin(items, limit), schedule);
            && |schedule| <= |Defined(items, |items|)|
            && (Resolved(s) <==> |schedule| == |Defined(items, |items|)|)
            && (Resolved(s) ==> s.settled == multiset(Defined(items, |items|)))
            && (!Resolved(s) ==> exists w :: CanSettle(s, w))
  {
    BeginHolds(items, limit);
    RunKeepsInv(items, Begin(items, limit), schedule);
    var s := After(items, Begin(items, limit), schedule);
    if Resolved(s) {
      ResolvedUsesUpTheList(items, s);
    } else {
      UnresolvedHasOneInFlight(items, s);
    }
  }

  lemma {:induction false} DefinedGrows<T>(items: seq<Option<T>>, lo: nat, hi: nat)
    requires lo <= hi <= |items|
    ensures |Defined(items, lo)| <= |Defined(items, hi)|
    decreases hi
  {
    if lo != hi { DefinedGrows(items, lo, hi - 1); }
  }

  // ---------------------------------------------------------------------------------
  // The pool itself: the cursor every worker loop shares.

  class SharedPool<T(==)> {
    const items: seq<Option<T>>
    var cursor: nat
    var running: seq<Option<nat>>
    var started: seq<nat>
    var settled: multiset<nat>

    ghost predicate Valid() reads this { cursor <= |items| }

    ghost function Now(): Pool reads this { Pool(cursor, running, started, settled) }

    constructor (items: seq<Option<T>>)
      ensures Valid() && this.items == items && Now() == Pool(0, [], [], multiset{})
    {
      this.items := items;
      cursor, running, started, settled := 0, [], [], multiset{};
    }

    /** One pass of a worker's loop, up to its next callback or its end. */
    method TakeNext(w: nat)
      requires Valid() && w < |running|
      modifies this`cursor, this`running, this`started
      ensures Valid() && Now() == Take(items, old(Now()), w)
    {
      while cursor < |items|
        invariant Valid() && running == old(running) && started == old(started)
        invariant NextDefined(items, cursor) == NextDefined(items, old(cursor))
        decreases |items| - cursor
      {
        var index := cursor;
        cursor := cursor + 1;
        if items[index].Some? {
          running := running[w := Some(index)];
          started := started + [index];
          return;
        }
      }
      running := running[w := None];
    }

    method StartWorkers(limit: int)
      requires Valid() && Now() == Pool(0, [], [], multiset{})
      modifies this`cursor, this`running, this`started
      ensures Valid() && Now() == Begin(items, limit)
    {
      if items == [] {
        return;
      }
      running := seq(WorkerCount(limit, |items|), _ => None);
      for w := 0 to |running|
        invariant Valid() && |running| == WorkerCount(limit, |items|) && settled == old(settled)
        invariant StartFrom(items, Now(), w) == Begin(items, limit)
      {
        TakeNext(w);
      }
    }

    /** `threw` changes nothing: a failed callback is swallowed. */
    method CallbackSettles(w: nat, threw: bool)
      requires Valid() && CanSettle(Now(), w)
      modifies this
      ensures Valid() && Now() == Settle(items, old(Now()), w)
    {
      settled := settled + multiset{running[w].value};
      TakeNext(w);
    }
  }
}
