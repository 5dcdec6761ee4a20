/** The in-flight map that lets concurrent requests for one key share a loader. */
module Singleflight {
  /** Flights are numbered in the order they start; `next` is the next number. */
  function AfterJoin<K>(inflight: map<K, nat>, key: K, next: nat): map<K, nat> {
    if key in inflight then inflight else inflight[key := next]
  }

  function AfterSettle<K>(inflight: map<K, nat>, key: K, flight: nat): map<K, nat> {
    if key in inflight && inflight[key] == flight then inflight - {key} else inflight
  }

  class Singleflight<K(==)> {
    var inflight: map<K, nat>
    var started: nat

    ghost predicate Valid() reads this {
      forall k, l :: k in inflight && l in inflight ==> inflight[k] < started && (inflight[k] == inflight[l] ==> k == l)
    }

    constructor ()
      ensures Valid() && inflight == map[] && started == 0
    {
      inflight := map[];
      started := 0;
    }

    /** Join the running flight of the key, or start one: the caller runs the loader only if `leads`. */
    method Do(key: K) returns (flight: nat, leads: bool)
      requires Valid()
      modifies this`inflight, this`started
      ensures Valid() && leads == (key !in old(inflight))
      ensures flight == if leads then old(started) else old(inflight)[key]
      ensures inflight == AfterJoin(old(inflight), key, old(started)) && inflight[key] == flight
      ensures started == old(started) + (if leads then 1 else 0)
    {
      leads := key !in inflight;
      if !leads {
        return inflight[key], false;
      }
      flight := started;
      inflight := inflight[key := flight];
      started := started + 1;
    }

    /** A flight settles: its entry goes, unless the key already belongs to a newer flight. */
    method Settle(key: K, flight: nat)
      requires Valid()
      modifies this`inflight
      ensures Valid() && inflight == AfterSettle(old(inflight), key, flight)
    {
      if key in inflight && inflight[key] == flight {
        inflight := inflight - {key};
      }
    }
  }

  /** After its flight settles a key starts afresh, and a flight that is not the key's own settles without a trace. */
  lemma SettleThenJoin<K>(inflight: map<K, nat>, key: K, flight: nat, next: nat)
    requires key in inflight && next !in inflight.Values
    ensures AfterJoin(AfterSettle(inflight, key, flight), key, next)[key]
         == if inflight[key] == flight then next else inflight[key]
    ensures AfterSettle(AfterJoin(inflight - {key}, key, next), key, next) == inflight - {key}
    ensures inflight[key] != flight ==> AfterSettle(inflight, key, flight) == inflight
  {
    var without := inflight - {key};
    assert without[key := next] - {key} == without;
  }
}
