/** Counting over the sequences of tasks, callers and flights that the protocol models keep. */
module Tally {
  import opened Wrappers

  function One(b: bool): nat { if b then 1 else 0 }

  /** How many elements are tagged `b`. */
  function Count<A, B(==)>(xs: seq<A>, tag: A -> Option<B>, b: B): nat {
    if xs == [] then 0 else Count(xs[..|xs| - 1], tag, b) + One(tag(xs[|xs| - 1]) == Some(b))
  }

  /** How many elements carry a tag at all. */
  function Total<A, B>(xs: seq<A>, tag: A -> Option<B>): nat {
    if xs == [] then 0 else Total(xs[..|xs| - 1], tag) + One(tag(xs[|xs| - 1]).Some?)
  }

  lemma CountAppend<A, B>(xs: seq<A>, x: A, tag: A -> Option<B>, b: B)
    ensures Count(xs + [x], tag, b) == Count(xs, tag, b) + One(tag(x) == Some(b))
  {
    assert (xs + [x])[..|xs|] == xs;
  }

  lemma TotalAppend<A, B>(xs: seq<A>, x: A, tag: A -> Option<B>)
    ensures Total(xs + [x], tag) == Total(xs, tag) + One(tag(x).Some?)
  {
    assert (xs + [x])[..|xs|] == xs;
  }

  lemma {:induction false} CountUpdate<A, B>(xs: seq<A>, i: nat, x: A, tag: A -> Option<B>, b: B)
    requires i < |xs|
    ensures Count(xs[i := x], tag, b) == Count(xs, tag, b) - One(tag(xs[i]) == Some(b)) + One(tag(x) == Some(b))
    ensures tag(xs[i]) == Some(b) ==> Count(xs, tag, b) >= 1
  {
    var n := |xs| - 1;
    if i == n {
      assert xs[i := x][..n] == xs[..n];
    } else {
      CountUpdate(xs[..n], i, x, tag, b);
      assert xs[i := x][..n] == xs[..n][i := x];
    }
  }

  lemma {:induction false} TotalUpdate<A, B>(xs: seq<A>, i: nat, x: A, tag: A -> Option<B>)
    requires i < |xs|
    ensures Total(xs[i := x], tag) == Total(xs, tag) - One(tag(xs[i]).Some?) + One(tag(x).Some?)
    ensures tag(xs[i]).Some? ==> Total(xs, tag) >= 1
  {
    var n := |xs| - 1;
    if i == n {
      assert xs[i := x][..n] == xs[..n];
    } else {
      TotalUpdate(xs[..n], i, x, tag);
      assert xs[i := x][..n] == xs[..n][i := x];
    }
  }

  lemma {:induction false} CountZero<A, B>(xs: seq<A>, tag: A -> Option<B>, b: B)
    requires forall x <- xs :: tag(x) != Some(b)
    ensures Count(xs, tag, b) == 0
  {
    if xs != [] {
      CountZero(xs[..|xs| - 1], tag, b);
    }
  }

  lemma {:induction false} TotalsAgree<A, B, C>(xs: seq<A>, f: A -> Option<B>, g: A -> Option<C>)
    requires forall x <- xs :: f(x).Some? <==> g(x).Some?
    ensures Total(xs, f) == Total(xs, g)
  {
    if xs != [] {
      TotalsAgree(xs[..|xs| - 1], f, g);
    }
  }

  lemma {:induction false} CountMono<A, B>(xs: seq<A>, f: A -> Option<B>, g: A -> Option<B>, b: B)
    requires forall x <- xs :: f(x) == Some(b) ==> g(x) == Some(b)
    ensures Count(xs, f, b) <= Count(xs, g, b)
  {
    if xs != [] {
      CountMono(xs[..|xs| - 1], f, g, b);
    }
  }

  lemma {:induction false} CountWitness<A, B>(xs: seq<A>, tag: A -> Option<B>, b: B) returns (i: nat)
    requires Count(xs, tag, b) > 0
    ensures i < |xs| && tag(xs[i]) == Some(b)
  {
    var n := |xs| - 1;
    if tag(xs[n]) == Some(b) {
      i := n;
    } else {
      i := CountWitness(xs[..n], tag, b);
    }
  }

  lemma {:induction false} CountPair<A, B>(xs: seq<A>, tag: A -> Option<B>, b: B, i: nat, j: nat)
    requires i < j < |xs| && tag(xs[i]) == tag(xs[j]) == Some(b)
    ensures Count(xs, tag, b) >= 2
  {
    var n := |xs| - 1;
    if j == n {
      CountUpdate(xs[..n], i, xs[i], tag, b);
    } else {
      CountPair(xs[..n], tag, b, i, j);
    }
  }

  // Summing counts over a list of distinct tags.

  ghost predicate Distinct<B>(bs: seq<B>) {
    forall i, j :: 0 <= i < j < |bs| ==> bs[i] != bs[j]
  }

  function SumOver<B>(bs: seq<B>, value: B -> nat): nat {
    if bs == [] then 0 else SumOver(bs[..|bs| - 1], value) + value(bs[|bs| - 1])
  }

  lemma {:induction false} SumOverBump<B>(bs: seq<B>, f: B -> nat, g: B -> nat, at: B)
    requires Distinct(bs)
    requires forall b <- bs :: g(b) == f(b) + One(b == at)
    ensures SumOver(bs, g) == SumOver(bs, f) + One(at in bs)
  {
    if bs != [] {
      SumOverBump(bs[..|bs| - 1], f, g, at);
    }
  }

  lemma {:induction false} SumOverSame<B>(bs: seq<B>, f: B -> nat, g: B -> nat)
    requires forall b <- bs :: g(b) == f(b)
    ensures SumOver(bs, g) == SumOver(bs, f)
  {
    if bs != [] {
      SumOverSame(bs[..|bs| - 1], f, g);
    }
  }

  /** If the tags listed are distinct and cover every tag in use, their counts add up to the total. */
  lemma {:induction false} CountsAddUp<A, B(!new)>(xs: seq<A>, tag: A -> Option<B>, bs: seq<B>)
    requires Distinct(bs)
    requires forall x <- xs :: tag(x).Some? ==> tag(x).value in bs
    ensures SumOver(bs, b => Count(xs, tag, b)) == Total(xs, tag)
  {
    var counts := b => Count(xs, tag, b);
    if xs == [] {
      SumOverZero(bs, counts);
    } else {
      var init, last := xs[..|xs| - 1], tag(xs[|xs| - 1]);
      var before := b => Count(init, tag, b);
      CountsAddUp(init, tag, bs);
      if last.Some? {
        assert last.value in bs;
        SumOverBump(bs, before, counts, last.value);
      } else {
        SumOverSame(bs, before, counts);
      }
    }
  }

  lemma {:induction false} SumOverZero<B>(bs: seq<B>, f: B -> nat)
    requires forall b <- bs :: f(b) == 0
    ensures SumOver(bs, f) == 0
  {
    if bs != [] {
      SumOverZero(bs[..|bs| - 1], f);
    }
  }

  // Adding up weights.

  function Weight<A>(xs: seq<A>, rank: A -> nat): nat {
    if xs == [] then 0 else Weight(xs[..|xs| - 1], rank) + rank(xs[|xs| - 1])
  }

  lemma WeightAppend<A>(xs: seq<A>, x: A, rank: A -> nat)
    ensures Weight(xs + [x], rank) == Weight(xs, rank) + rank(x)
  {
    assert (xs + [x])[..|xs|] == xs;
  }

  lemma {:induction false} WeightUpdate<A>(xs: seq<A>, i: nat, x: A, rank: A -> nat)
    requires i < |xs|
    ensures Weight(xs[i := x], rank) == Weight(xs, rank) - rank(xs[i]) + rank(x)
    ensures rank(xs[i]) <= Weight(xs, rank)
  {
    var n := |xs| - 1;
    if i == n {
      assert xs[i := x][..n] == xs[..n];
    } else {
      WeightUpdate(xs[..n], i, x, rank);
      assert xs[i := x][..n] == xs[..n][i := x];
    }
  }

  /** Something of positive weight is left in a list of positive weight. */
  lemma {:induction false} WeightWitness<A>(xs: seq<A>, rank: A -> nat) returns (i: nat)
    requires Weight(xs, rank) > 0
    ensures i < |xs| && rank(xs[i]) > 0
  {
    var n := |xs| - 1;
    if rank(xs[n]) > 0 {
      i := n;
    } else {
      i := WeightWitness(xs[..n], rank);
    }
  }
}
