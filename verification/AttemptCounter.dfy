/** The bounded per-event attempt counter: an insertion-ordered map, oldest entry dropped first. */
module AttemptCounter {
  import opened Wrappers

  datatype Attempt = Attempt(eventId: string, count: nat)

  type Attempts = seq<Attempt>

  ghost predicate WellFormed(attempts: Attempts) {
    && (forall i, j :: 0 <= i < j < |attempts| ==> attempts[i].eventId != attempts[j].eventId)
    && (forall a <- attempts :: a.count > 0)
  }

  function CountOf(attempts: Attempts, eventId: string): nat {
    if attempts == [] then 0
    else if attempts[0].eventId == eventId then attempts[0].count
    else CountOf(attempts[1..], eventId)
  }

  function AfterReset(attempts: Attempts, eventId: string): Attempts {
    if attempts == [] then []
    else if attempts[0].eventId == eventId then attempts[1..]
    else [attempts[0]] + AfterReset(attempts[1..], eventId)
  }

  function Bumped(attempts: Attempts, eventId: string): Attempts {
    AfterReset(attempts, eventId) + [Attempt(eventId, CountOf(attempts, eventId) + 1)]
  }

  function AfterIncrement(max: nat, attempts: Attempts, eventId: string): Attempts {
    var bumped := Bumped(attempts, eventId);
    if |bumped| > max then bumped[1..] else bumped
  }

  /** Whether counting this event pushes the oldest one out. */
  predicate Evicts(max: nat, attempts: Attempts, eventId: string) { |Bumped(attempts, eventId)| > max }

  lemma {:induction false} CountOfAbsent(attempts: Attempts, eventId: string)
    requires forall a <- attempts :: a.eventId != eventId
    ensures CountOf(attempts, eventId) == 0
  {
    if attempts != [] { CountOfAbsent(attempts[1..], eventId); }
  }

  lemma {:induction false} CountOfAppend(attempts: Attempts, a: Attempt, eventId: string)
    requires forall b <- attempts :: b.eventId != a.eventId
    ensures CountOf(attempts + [a], eventId) == if a.eventId == eventId then a.count else CountOf(attempts, eventId)
  {
    if attempts == [] {
      assert attempts + [a] == [a];
    } else {
      assert attempts[0] in attempts && (attempts + [a])[1..] == attempts[1..] + [a];
      CountOfAppend(attempts[1..], a, eventId);
    }
  }

  lemma {:induction false} ResetForgetsOnly(attempts: Attempts, eventId: string)
    requires WellFormed(attempts)
    ensures WellFormed(AfterReset(attempts, eventId)) && |AfterReset(attempts, eventId)| <= |attempts|
    ensures forall a <- AfterReset(attempts, eventId) :: a in attempts && a.eventId != eventId
    ensures forall k :: CountOf(AfterReset(attempts, eventId), k) == if k == eventId then 0 else CountOf(attempts, k)
  {
    if attempts != [] {
      var rest := attempts[1..];
      assert forall i :: 0 <= i < |rest| ==> rest[i] == attempts[i + 1];
      assert forall a <- rest :: a in attempts && a.eventId != attempts[0].eventId;
      if attempts[0].eventId == eventId {
        CountOfAbsent(rest, eventId);
      } else {
        ResetForgetsOnly(rest, eventId);
      }
    }
  }

  lemma BumpCounts(attempts: Attempts, eventId: string)
    requires WellFormed(attempts)
    ensures WellFormed(Bumped(attempts, eventId)) && 0 < |Bumped(attempts, eventId)| <= |attempts| + 1
    ensures forall k :: CountOf(Bumped(attempts, eventId), k) == CountOf(attempts, k) + if k == eventId then 1 else 0
  {
    ResetForgetsOnly(attempts, eventId);
    var kept, a := AfterReset(attempts, eventId), Attempt(eventId, CountOf(attempts, eventId) + 1);
    forall k ensures CountOf(Bumped(attempts, eventId), k) == if k == eventId then a.count else CountOf(kept, k) {
      CountOfAppend(kept, a, k);
    }
  }

  /** An increment adds one to its own event and at worst forgets one other, the oldest. */
  lemma IncrementCounts(max: nat, attempts: Attempts, eventId: string)
    requires WellFormed(attempts) && 1 <= max && |attempts| <= max
    ensures var to := AfterIncrement(max, attempts, eventId);
            && WellFormed(to) && |to| <= max
            && CountOf(to, eventId) == CountOf(attempts, eventId) + 1
            && (forall k :: k != eventId && CountOf(to, k) != CountOf(attempts, k) ==>
                  Evicts(max, attempts, eventId) && attempts != [] && k == attempts[0].eventId && CountOf(to, k) == 0)
            && (Evicts(max, attempts, eventId) ==>
                  attempts != [] && attempts[0].eventId != eventId
                  && CountOf(attempts, attempts[0].eventId) > 0 && CountOf(to, attempts[0].eventId) == 0)
  {
    BumpCounts(attempts, eventId);
    ResetForgetsOnly(attempts, eventId);
    var bumped := Bumped(attempts, eventId);
    if Evicts(max, attempts, eventId) {
      EvictionHitsTheOldest(attempts, eventId);
      var oldest, rest := bumped[0], bumped[1..];
      assert forall i :: 0 <= i < |rest| ==> rest[i] == bumped[i + 1];
      CountOfAbsent(rest, oldest.eventId);
      assert forall k :: k != oldest.eventId ==> CountOf(bumped, k) == CountOf(rest, k);
    }
  }

  lemma EvictionHitsTheOldest(attempts: Attempts, eventId: string)
    requires WellFormed(attempts) && |Bumped(attempts, eventId)| > |attempts| >= 1
    ensures Bumped(attempts, eventId)[0] == attempts[0] && attempts[0].eventId != eventId
  {
  }

  class InMemoryAttemptCounter {
    const max: nat
    var attempts: Attempts

    ghost predicate Valid() reads this { WellFormed(attempts) && 1 <= max && |attempts| <= max }

    constructor (limit: int)
      ensures Valid() && max == Max(1, limit) && attempts == []
    {
      max := Max(1, limit);
      attempts := [];
    }

    method Increment(eventId: string) returns (count: nat)
      requires Valid()
      modifies this`attempts
      ensures Valid() && attempts == AfterIncrement(max, old(attempts), eventId)
      ensures count == CountOf(old(attempts), eventId) + 1 == CountOf(attempts, eventId)
    {
      IncrementCounts(max, attempts, eventId);
      count := CountOf(attempts, eventId) + 1;
      attempts := AfterReset(attempts, eventId);
      attempts := attempts + [Attempt(eventId, count)];
      if |attempts| > max {
        attempts := attempts[1..];
      }
    }

    method Reset(eventId: string)
      requires Valid()
      modifies this`attempts
      ensures Valid() && attempts == AfterReset(old(attempts), eventId)
    {
      ResetForgetsOnly(attempts, eventId);
      attempts := AfterReset(attempts, eventId);
    }
  }
}
