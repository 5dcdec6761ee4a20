/**
 * The daily provider-call meter: the two counter stores, the tracker that reserves and
 * refunds against them, and the posture read off a count.
 */
module Quota {
  import opened Wrappers

  /** A UTC calendar day. The source writes it as the date part of an ISO timestamp. */
  type Window = int

  const DAY_MS: int := 86_400_000

  function WindowFor(now: int): Window { now / DAY_MS }

  datatype Posture = Normal | SoftCapReached | HardCapReached

  datatype Snapshot = Snapshot(window: Window, calls: int, posture: Posture, cachedOnlyMode: bool)

  datatype Check = Check(allowed: bool, atSoftCap: bool, snapshot: Snapshot)

  type Counts = map<Window, nat>

  function ReadCount(counts: Counts, window: Window): nat {
    if window in counts then counts[window] else 0
  }

  /** What one increment makes of a counter: clamped in memory, the raw sum in Redis. */
  function MovedInMemory(counter: int, delta: int): nat { Max(0, counter + delta) }

  function MovedInRedis(counter: int, delta: int): int { counter + delta }

  function Incremented(counts: Counts, window: Window, delta: int): Counts {
    counts[window := MovedInMemory(ReadCount(counts, window), delta)]
  }

  function SnapshotFromCount(window: Window, calls: int, hardCap: int, softCap: int): Snapshot {
    var posture :=
      if calls >= hardCap then HardCapReached else if calls >= softCap then SoftCapReached else Normal;
    Snapshot(window, calls, posture, posture != Normal)
  }

  class InMemoryQuotaStore {
    var counts: Counts

    constructor ()
      ensures counts == map[]
    {
      counts := map[];
    }

    method Increment(window: Window, delta: int) returns (total: nat)
      modifies this
      ensures counts == Incremented(old(counts), window, delta)
      ensures total == ReadCount(counts, window)
    {
      var current := if window in counts then counts[window] else 0;
      total := Max(0, current + delta);
      counts := counts[window := total];
    }

    method Read(window: Window) returns (total: nat)
      ensures total == ReadCount(counts, window)
    {
      total := if window in counts then counts[window] else 0;
    }
  }

  const WINDOW_TTL_SECONDS: int := 36 * 60 * 60

  /** Redis keeps the raw sum, which may go below zero; only what is answered is clamped. */
  class RedisQuotaStore {
    const windowTtlSeconds: int
    var raw: map<Window, int>
    var expiresAt: map<Window, int>

    constructor (windowTtlSeconds: int)
      ensures raw == map[] && expiresAt == map[] && this.windowTtlSeconds == windowTtlSeconds
    {
      this.windowTtlSeconds := windowTtlSeconds;
      raw, expiresAt := map[], map[];
    }

    function Raw(window: Window): int
      reads this
    {
      if window in raw then raw[window] else 0
    }

    /** Only a positive increment moves the expiry; a refund does not push it. */
    method Increment(window: Window, delta: int, now: int) returns (total: nat)
      modifies this
      ensures raw == old(raw)[window := MovedInRedis(old(Raw(window)), delta)]
      ensures expiresAt == if delta > 0 then old(expiresAt)[window := now + windowTtlSeconds * 1000] else old(expiresAt)
      ensures total == Max(0, Raw(window))
    {
      raw := raw[window := Raw(window) + delta];
      if delta > 0 {
        expiresAt := expiresAt[window := now + windowTtlSeconds * 1000];
      }
      total := Max(0, raw[window]);
    }

    method Read(window: Window) returns (total: nat)
      ensures total == Max(0, Raw(window))
    {
      if window !in raw {
        return 0;
      }
      var parsed := raw[window];
      total := if parsed > 0 then parsed else 0;
    }

    /** The server drops the windows whose time is over. */
    method DropExpired(now: int)
      modifies this
      ensures raw == map w | w in old(raw) && !(w in old(expiresAt) && old(expiresAt)[w] <= now) :: old(raw)[w]
      ensures expiresAt == map w | w in old(expiresAt) && old(expiresAt)[w] > now :: old(expiresAt)[w]
    {
      raw := map w | w in raw && !(w in expiresAt && expiresAt[w] <= now) :: raw[w];
      expiresAt := map w | w in expiresAt && expiresAt[w] > now :: expiresAt[w];
    }
  }

  /** A window counted at `now` outlives its own day, with the default time to live, and half of the next. */
  lemma WindowOutlivesItsDay(now: int, later: int)
    requires WindowFor(later) == WindowFor(now) || later < (WindowFor(now) + 1) * DAY_MS + DAY_MS / 2
    ensures later < now + WINDOW_TTL_SECONDS * 1000
  {
    assert now >= WindowFor(now) * DAY_MS && later < (WindowFor(later) + 1) * DAY_MS;
  }

  datatype Store = InMemory(memory: InMemoryQuotaStore) | Redis(redis: RedisQuotaStore)

  class ProviderQuotaTracker {
    const store: Store
    const hardCap: int
    const softCap: int

    constructor (store: Store, hardCap: int, softCap: int)
      ensures this.store == store && this.hardCap == hardCap && this.softCap == softCap
    {
      this.store, this.hardCap, this.softCap := store, hardCap, softCap;
    }

    function Footprint(): set<object> {
      match store case InMemory(memory) => {memory} case Redis(redis) => {redis}
    }

    /** The counter of a window as the store keeps it: never negative in memory, a raw sum in Redis. */
    function Counter(window: Window): int
      reads Footprint()
    {
      match store
      case InMemory(memory) => ReadCount(memory.counts, window)
      case Redis(redis) => redis.Raw(window)
    }

    /** What the counter becomes. */
    function Moved(counter: int, delta: int): int {
      if store.InMemory? then MovedInMemory(counter, delta) else MovedInRedis(counter, delta)
    }

    method StoreIncrement(window: Window, delta: int, now: int) returns (total: nat)
      modifies Footprint()
      ensures Counter(window) == Moved(old(Counter(window)), delta) && total == Max(0, Counter(window))
      ensures forall w: Window :: w != window ==> Counter(w) == old(Counter(w))
    {
      match store {
        case InMemory(memory) => total := memory.Increment(window, delta);
        case Redis(redis) => total := redis.Increment(window, delta, now);
      }
    }

    method CurrentSnapshot(now: int) returns (snapshot: Snapshot)
      ensures snapshot == SnapshotFromCount(WindowFor(now), Max(0, Counter(WindowFor(now))), hardCap, softCap)
    {
      var calls;
      match store {
        case InMemory(memory) => calls := memory.Read(WindowFor(now));
        case Redis(redis) => calls := redis.Read(WindowFor(now));
      }
      snapshot := SnapshotFromCount(WindowFor(now), calls, hardCap, softCap);
    }

    /**
     * Increment first, then evaluate what the store answers. A reservation that breaches the hard
     * cap is given back, so every window counts as before.
     */
    method Reserve(cost: int, now: int) returns (r: Result<Check>)
      modifies Footprint()
      ensures r.Err? <==> cost <= 0
      ensures forall w: Window :: (r.Err? || !r.value.allowed || w != WindowFor(now)) ==> Counter(w) == old(Counter(w))
      ensures r.Ok? ==> var before := old(Counter(WindowFor(now)));
              && (r.value.allowed <==> Max(0, before + cost) <= hardCap)
              && (r.value.allowed ==> Counter(WindowFor(now)) == before + cost)
              && r.value.snapshot
                 == SnapshotFromCount(WindowFor(now),
                                      if r.value.allowed then Max(0, before + cost)
                                      else Max(0, Max(0, before + cost) - cost),
                                      hardCap, softCap)
              && (r.value.atSoftCap <==> r.value.allowed && r.value.snapshot.posture == SoftCapReached)
    {
      if cost <= 0 {
        return Err("Provider quota cost must be positive");
      }
      var window := WindowFor(now);
      var total := StoreIncrement(window, cost, now);
      if total > hardCap {
        var _ := StoreIncrement(window, -cost, now);
        var refunded := Max(0, total - cost);
        return Ok(Check(false, false, SnapshotFromCount(window, refunded, hardCap, softCap)));
      }
      var snapshot := SnapshotFromCount(window, total, hardCap, softCap);
      return Ok(Check(true, snapshot.posture == SoftCapReached, snapshot));
    }

    /** Gives `cost` back to the window of the moment of the refund. */
    method Refund(cost: int, now: int) returns (r: Result<Snapshot>)
      modifies Footprint()
      ensures r.Err? <==> cost <= 0
      ensures forall w: Window :: (r.Err? || w != WindowFor(now)) ==> Counter(w) == old(Counter(w))
      ensures r.Ok? ==>
                && Counter(WindowFor(now)) == Moved(old(Counter(WindowFor(now))), -cost)
                && r.value == SnapshotFromCount(WindowFor(now), Max(0, Counter(WindowFor(now))), hardCap, softCap)
    {
      if cost <= 0 {
        return Err("Provider quota refund cost must be positive");
      }
      var window := WindowFor(now);
      var total := StoreIncrement(window, -cost, now);
      r := Ok(SnapshotFromCount(window, total, hardCap, softCap));
    }

    /**
     * A granted reservation followed by its refund leaves every window counting as before
     * exactly when both moments fall on the same UTC day.
     */
    method ReserveThenRefund(cost: int, now: int, later: int) returns (allowed: bool)
      requires cost > 0
      modifies Footprint()
      ensures allowed <==> Max(0, old(Counter(WindowFor(now))) + cost) <= hardCap
      ensures allowed ==>
                ((forall w: Window :: Counter(w) == old(Counter(w))) <==> WindowFor(later) == WindowFor(now))
    {
      ghost var before := Counter(WindowFor(now));
      var r := Reserve(cost, now);
      allowed := r.value.allowed;
      if allowed {
        var _ := Refund(cost, later);
        if WindowFor(later) != WindowFor(now) {
          assert Counter(WindowFor(now)) == before + cost;
        }
      }
    }
  }

  /**
   * What a denied reservation reports. With unit cost it always reads as the hard cap, so
   * the workflows abort on it; a dearer reservation is denied with a lower posture exactly
   * when the count it found was still under the cap.
   */
  lemma DeniedReservationPosture(before: nat, cost: int, window: Window, hardCap: int, softCap: int)
    requires cost > 0 && before + cost > hardCap
    ensures SnapshotFromCount(window, before, hardCap, softCap).posture == HardCapReached <==> before >= hardCap
    ensures cost == 1 ==> SnapshotFromCount(window, before, hardCap, softCap).posture == HardCapReached
  {
  }

  // ---------------------------------------------------------------------------------
  // The two stores compared on one window and one sequence of increments.

  function MemoryCount(ops: seq<int>): nat {
    if ops == [] then 0 else MovedInMemory(MemoryCount(ops[..|ops| - 1]), ops[|ops| - 1])
  }

  function RedisCount(ops: seq<int>): int {
    if ops == [] then 0 else MovedInRedis(RedisCount(ops[..|ops| - 1]), ops[|ops| - 1])
  }

  /** The lowest value the raw counter has had so far. */
  function Lowest(ops: seq<int>): int {
    if ops == [] then 0 else Min(Lowest(ops[..|ops| - 1]), RedisCount(ops))
  }

  /** The in-memory store is the raw counter reflected at its lowest point. */
  lemma {:induction false} MemoryIsReflectedRedis(ops: seq<int>)
    ensures MemoryCount(ops) == RedisCount(ops) - Lowest(ops)
  {
    if ops != [] {
      MemoryIsReflectedRedis(ops[..|ops| - 1]);
    }
  }

  lemma {:induction false} LowestIsAttained(ops: seq<int>) returns (n: nat)
    ensures n <= |ops| && RedisCount(ops[..n]) == Lowest(ops)
    ensures forall m :: 0 <= m <= |ops| ==> Lowest(ops) <= RedisCount(ops[..m])
  {
    assert ops[..|ops|] == ops;
    if ops == [] {
      n := 0;
    } else {
      var init := ops[..|ops| - 1];
      n := LowestIsAttained(init);
      forall m | 0 <= m <= |ops|
        ensures Lowest(ops) <= RedisCount(ops[..m])
      {
        if m < |ops| { assert init[..m] == ops[..m]; }
      }
      assert init[..n] == ops[..n];
      if Lowest(ops) != Lowest(init) { n := |ops|; }
    }
  }

  /** The two stores hold the same number exactly when no refund ever went below zero. */
  lemma StoresAgreeIffNeverNegative(ops: seq<int>)
    ensures MemoryCount(ops) == RedisCount(ops) <==> forall n :: 0 <= n <= |ops| ==> RedisCount(ops[..n]) >= 0
  {
    MemoryIsReflectedRedis(ops);
    var n := LowestIsAttained(ops);
    assert RedisCount(ops[..0]) == 0;
  }
}
