/** The ingestion counters. A counter map is the table of one multiset of events. */
module IngestionMetrics {
  datatype CallOutcome = WasCached | WasFetched | WasSkipped | WasFailed | WasDenied | WasRateLimited

  function Read<K>(counters: map<K, nat>, key: K): nat { if key in counters then counters[key] else 0 }

  /** The map counts exactly these events. */
  ghost predicate Counts<K(!new)>(counters: map<K, nat>, events: multiset<K>) {
    forall k: K :: Read(counters, k) == events[k]
  }

  function Bumped<K>(counters: map<K, nat>, key: K): map<K, nat> { counters[key := Read(counters, key) + 1] }

  /** A bump is one more event. */
  lemma BumpCounts<K(!new)>(counters: map<K, nat>, events: multiset<K>, key: K)
    requires Counts(counters, events)
    ensures Counts(Bumped(counters, key), events + multiset{key})
  {
  }

  class IngestionMetrics<W(==, !new)> {
    var providerCalls: map<W, nat>
    var endpointVolume: map<string, nat>
    var outcomes: map<CallOutcome, nat>
    var cacheHits: nat
    var cacheMisses: nat
    ghost var called: multiset<W>
    ghost var reached: multiset<string>
    ghost var ended: multiset<CallOutcome>

    ghost predicate Valid()
      reads this
    {
      Counts(providerCalls, called) && Counts(endpointVolume, reached) && Counts(outcomes, ended)
    }

    constructor ()
      ensures Valid() && called == multiset{} && reached == multiset{} && ended == multiset{}
              && cacheHits == cacheMisses == 0
    {
      providerCalls, endpointVolume, outcomes := map[], map[], map[];
      cacheHits, cacheMisses := 0, 0;
      called, reached, ended := multiset{}, multiset{}, multiset{};
    }

    /** A call counts once for its workload and once for its endpoint. */
    method RecordProviderCall(workload: W, endpoint: string)
      requires Valid()
      modifies this`providerCalls, this`endpointVolume, this`called, this`reached
      ensures Valid() && called == old(called) + multiset{workload} && reached == old(reached) + multiset{endpoint}
    {
      BumpCounts(providerCalls, called, workload);
      BumpCounts(endpointVolume, reached, endpoint);
      providerCalls := Bumped(providerCalls, workload);
      endpointVolume := Bumped(endpointVolume, endpoint);
      called := called + multiset{workload};
      reached := reached + multiset{endpoint};
    }

    method RecordOutcome(outcome: CallOutcome)
      requires Valid()
      modifies this`outcomes, this`ended
      ensures Valid() && ended == old(ended) + multiset{outcome}
    {
      BumpCounts(outcomes, ended, outcome);
      outcomes := Bumped(outcomes, outcome);
      ended := ended + multiset{outcome};
    }

    method RecordCacheHit()
      requires Valid()
      modifies this`cacheHits
      ensures Valid() && cacheHits == old(cacheHits) + 1
    {
      cacheHits := cacheHits + 1;
    }

    method RecordCacheMiss()
      requires Valid()
      modifies this`cacheMisses
      ensures Valid() && cacheMisses == old(cacheMisses) + 1
    {
      cacheMisses := cacheMisses + 1;
    }

    method Reset()
      requires Valid()
      modifies this
      ensures Valid() && called == multiset{} && reached == multiset{} && ended == multiset{}
              && cacheHits == cacheMisses == 0
    {
      providerCalls, endpointVolume, outcomes := map[], map[], map[];
      cacheHits, cacheMisses := 0, 0;
      called, reached, ended := multiset{}, multiset{}, multiset{};
    }
  }
}
