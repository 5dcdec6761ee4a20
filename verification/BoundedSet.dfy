/** Sets kept in insertion order that forget their oldest member when they grow past a bound. */
module BoundedSet {
  import opened Wrappers
  import opened Tally

  /** None is the Redis variant, which never evicts. */
  type Capacity = Option<int>

  predicate Full(cap: Capacity, seen: seq<string>) { cap.Some? && |seen| >= Max(1, cap.value) }

  function AfterMark(cap: Capacity, seen: seq<string>, key: string): seq<string> {
    if key in seen then seen
    else if Full(cap, seen) then (seen + [key])[1..]
    else seen + [key]
  }

  function Without(seen: seq<string>, key: string): seq<string> {
    if seen == [] then [] else if seen[0] == key then seen[1..] else [seen[0]] + Without(seen[1..], key)
  }

  lemma {:induction false} WithoutRemovesOnly(seen: seq<string>, key: string)
    requires Distinct(seen)
    ensures Distinct(Without(seen, key)) && key !in Without(seen, key)
    ensures forall k :: k != key ==> (k in Without(seen, key) <==> k in seen)
  {
    if seen != [] {
      assert forall k :: k in seen <==> k == seen[0] || k in seen[1..];
      assert forall i :: 0 <= i < |seen[1..]| ==> seen[1..][i] == seen[i + 1];
      WithoutRemovesOnly(seen[1..], key);
      if seen[0] != key {
        assert seen[0] !in Without(seen[1..], key);
      }
    }
  }

  lemma MarkKeepsDistinct(cap: Capacity, seen: seq<string>, key: string)
    requires Distinct(seen)
    ensures Distinct(AfterMark(cap, seen, key))
    ensures cap.Some? && |seen| <= Max(1, cap.value) ==> |AfterMark(cap, seen, key)| <= Max(1, cap.value)
    ensures key in AfterMark(cap, seen, key)
    ensures forall k :: k != key ==>
              (k in AfterMark(cap, seen, key) <==> k in seen && !(key !in seen && Full(cap, seen) && k == seen[0]))
  {
    if key !in seen && Full(cap, seen) {
      assert AfterMark(cap, seen, key) == seen[1..] + [key];
      assert forall k :: k in seen <==> k == seen[0] || k in seen[1..];
      assert seen[0] !in seen[1..];
    }
  }

  lemma {:induction false} WithoutIsNoLonger(seen: seq<string>, key: string)
    ensures |Without(seen, key)| == |seen| - One(key in seen)
  {
    if seen != [] && seen[0] != key { WithoutIsNoLonger(seen[1..], key); }
  }

  lemma {:induction false} DistinctFits(xs: seq<string>, keys: set<string>)
    requires Distinct(xs) && forall x <- xs :: x in keys
    ensures |xs| <= |keys|
  {
    if xs != [] {
      var n := |xs| - 1;
      DistinctFits(xs[..n], keys - {xs[n]});
    }
  }
}
