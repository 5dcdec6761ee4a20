/**
 * The stream consumer gets to every entry: what is handled, in which order and with which result, told
 * from the replies of the server and the looks at the abort signal alone.
 */
module StreamHandling {
  import opened Wrappers
  import opened StreamConsumer
  import opened StreamAccounting

  /** Entries as they come with their subscription. */
  function For(sub: Subscription, ds: seq<Delivery>): seq<(Subscription, Delivery)> {
    seq(|ds|, i requires 0 <= i < |ds| => (sub, ds[i]))
  }

  lemma ForSplits(sub: Subscription, ds: seq<Delivery>, k: nat)
    requires 1 <= k <= |ds|
    ensures For(sub, ds[..k]) == [(sub, ds[0])] + For(sub, ds[1..][..k - 1])
  {
  }

  // ---------------------------------------------------------------------------------
  // One batch.

  /** Of `n` looks from `looked` on, the first that finds the abort signal set is the `k`th; none, if `k` is `n`. */
  ghost predicate CutsAt(env: Env, looked: nat, n: nat, k: nat) {
    && k <= n && (forall i: nat :: looked <= i < looked + k ==> !env.aborted(i))
    && (k < n ==> env.aborted(looked + k))
  }

  lemma EntryIsTaken(cfg: Config, s: State, sub: Subscription, d: Delivery, a: Answers)
    ensures var to := HandleEntry(cfg, s, sub, d, a);
            && to.taken == s.taken + [(sub, d)]
            && to.metrics.received == s.metrics.received + multiset{sub.factType}
  {
  }

  /**
   * The entries of an answered read are handled in order, each once, up to the first look that finds
   * the abort signal set, and all of them if there is none.
   */
  lemma {:induction false} BatchTakesUpToTheAbort(
    env: Env, cfg: Config, p: Progress, sub: Subscription, ds: seq<Delivery>, k: nat)
    requires !p.stopped && CutsAt(env, p.at.looked, |ds|, k)
    ensures Took(p, sub, ds, k, HandleAll(env, cfg, p, sub, ds))
    decreases |ds|
  {
    if k == 0 {
      CutAtOnce(env, cfg, p, sub, ds);
    } else {
      var next := HandleOne(env, cfg, p, sub, ds[0]);
      OneIsTaken(env, cfg, p, sub, ds[0]);
      CutsLater(env, p.at.looked, |ds|, k);
      BatchTakesUpToTheAbort(env, cfg, next, sub, ds[1..], k - 1);
      OneMoreTaken(p, sub, ds, k, next, HandleAll(env, cfg, next, sub, ds[1..]));
    }
  }

  lemma {:induction false} CutAtOnce(env: Env, cfg: Config, p: Progress, sub: Subscription, ds: seq<Delivery>)
    requires !p.stopped && CutsAt(env, p.at.looked, |ds|, 0)
    ensures Took(p, sub, ds, 0, HandleAll(env, cfg, p, sub, ds))
  {
    assert p.s.taken + For(sub, ds[..0]) == p.s.taken;
  }

  lemma {:induction false} CutsLater(env: Env, looked: nat, n: nat, k: nat)
    requires 1 <= k && CutsAt(env, looked, n, k)
    ensures !env.aborted(looked) && CutsAt(env, looked + 1, n - 1, k - 1)
  {
  }

  /** One entry of a batch: taken, counted, and its answers used. */
  ghost predicate TookOne(p: Progress, sub: Subscription, d: Delivery, next: Progress) {
    && next.s.taken == p.s.taken + [(sub, d)] && !next.stopped
    && next.s.metrics.received == p.s.metrics.received + multiset{sub.factType}
    && next.at == p.at.(looked := p.at.looked + 1, handled := p.at.handled + 1)
  }

  lemma {:induction false} OneIsTaken(env: Env, cfg: Config, p: Progress, sub: Subscription, d: Delivery)
    ensures TookOne(p, sub, d, HandleOne(env, cfg, p, sub, d))
  {
    EntryIsTaken(cfg, p.s, sub, d, env.answers(p.at.handled));
  }

  /** The first `k` entries of a batch have been handled, and the rest have not. */
  ghost predicate Took(p: Progress, sub: Subscription, ds: seq<Delivery>, k: nat, to: Progress) {
    && k <= |ds| && to.s.taken == p.s.taken + For(sub, ds[..k])
    && to.at.handled == p.at.handled + k && to.at.read == p.at.read
    && to.at.looked == p.at.looked + k + (if to.stopped then 1 else 0)
    && (to.stopped <==> k < |ds|)
    && to.s.metrics.received[sub.factType] == p.s.metrics.received[sub.factType] + k
  }

  lemma {:induction false} OneMoreTaken(
    p: Progress, sub: Subscription, ds: seq<Delivery>, k: nat, next: Progress, to: Progress)
    requires 1 <= k <= |ds| && Took(next, sub, ds[1..], k - 1, to)
    requires TookOne(p, sub, ds[0], next)
    ensures Took(p, sub, ds, k, to)
  {
    ForSplits(sub, ds, k);
    var rest := For(sub, ds[1..][..k - 1]);
    assert p.s.taken + ([(sub, ds[0])] + rest) == (p.s.taken + [(sub, ds[0])]) + rest;
  }

  /** Handling puts nothing on the pending list and takes nothing off the handled ones. */
  lemma {:induction false} BatchOnlyRemoves(env: Env, cfg: Config, p: Progress, sub: Subscription, ds: seq<Delivery>)
    ensures var to := HandleAll(env, cfg, p, sub, ds);
            to.s.pending <= p.s.pending && p.s.succeeded <= to.s.succeeded
    decreases |ds|
  {
    if ds != [] && !env.aborted(p.at.looked) {
      EntryMoves(cfg, p.s, sub, ds[0], env.answers(p.at.handled));
      BatchOnlyRemoves(env, cfg, HandleOne(env, cfg, p, sub, ds[0]), sub, ds[1..]);
    }
  }

  lemma {:induction false} OneIsHandled(env: Env, cfg: Config, p: Progress, sub: Subscription, d: Delivery)
    requires d.entry.payload.Fact? && env.answers(p.at.handled).handler == Succeeded
    ensures var to, ref := HandleOne(env, cfg, p, sub, d).s, RefOf(sub, d);
            IsDone(to, ref, env.answers(p.at.handled))
  {
    EntryMoves(cfg, p.s, sub, d, env.answers(p.at.handled));
  }

  /** The `i`th entry of a batch is got to before any abort, and its handler succeeds. */
  ghost predicate Reached(env: Env, p: Progress, ds: seq<Delivery>, i: nat) {
    && i < |ds| && (forall j: nat :: p.at.looked <= j <= p.at.looked + i ==> !env.aborted(j))
    && ds[i].entry.payload.Fact? && env.answers(p.at.handled + i).handler == Succeeded
  }

  /** The entry counts as handled, and its ack, if carried out, has taken it off the pending list. */
  ghost predicate IsDone(s: State, ref: Ref, a: Answers) {
    ref in s.succeeded && (Lands(a.xAck) ==> ref !in s.pending)
  }

  /** Without an abort before it, the rest of a batch is handled like a batch of its own. */
  lemma {:induction false} BatchSplits(
    env: Env, cfg: Config, p: Progress, sub: Subscription, ds: seq<Delivery>, i: nat)
    requires !p.stopped && i <= |ds| && CutsAt(env, p.at.looked, i, i)
    ensures HandleAll(env, cfg, p, sub, ds) == HandleAll(env, cfg, HandleAll(env, cfg, p, sub, ds[..i]), sub, ds[i..])
    decreases |ds|
  {
    if i == 0 {
      assert ds[i..] == ds && HandleAll(env, cfg, p, sub, ds[..0]) == p;
    } else {
      var next := HandleOne(env, cfg, p, sub, ds[0]);
      CutsLater(env, p.at.looked, i, i);
      BatchSplits(env, cfg, next, sub, ds[1..], i - 1);
      assert ds[..i][0] == ds[0] && ds[..i][1..] == ds[1..][..i - 1] && ds[i..] == ds[1..][i - 1..];
    }
  }

  lemma {:induction false} FirstIsHandled(env: Env, cfg: Config, p: Progress, sub: Subscription, ds: seq<Delivery>)
    requires Reached(env, p, ds, 0)
    ensures IsDone(HandleAll(env, cfg, p, sub, ds).s, RefOf(sub, ds[0]), env.answers(p.at.handled))
  {
    assert !env.aborted(p.at.looked);
    OneIsHandled(env, cfg, p, sub, ds[0]);
    BatchOnlyRemoves(env, cfg, HandleOne(env, cfg, p, sub, ds[0]), sub, ds[1..]);
  }

  /** An entry got to before any abort whose handler succeeds is handled, and not pending if its ack lands. */
  lemma {:induction false} ReachedEntryIsHandled(
    env: Env, cfg: Config, p: Progress, sub: Subscription, ds: seq<Delivery>, i: nat)
    requires !p.stopped && Reached(env, p, ds, i)
    ensures IsDone(HandleAll(env, cfg, p, sub, ds).s, RefOf(sub, ds[i]), env.answers(p.at.handled + i))
  {
    BatchSplits(env, cfg, p, sub, ds, i);
    BatchTakesUpToTheAbort(env, cfg, p, sub, ds[..i], i);
    FirstIsHandled(env, cfg, HandleAll(env, cfg, p, sub, ds[..i]), sub, ds[i..]);
  }

  // ---------------------------------------------------------------------------------
  // One tick.

  /** What the reads of one tick bring, subscription by subscription; a failed one brings nothing. */
  function TickBrings(env: Env, read: nat, subs: seq<Subscription>): seq<(Subscription, Delivery)>
    decreases |subs|
  {
    if subs == [] then []
    else
      (match env.replies(read)
       case ReadFailed(_) => []
       case ReadGave(ds) => For(subs[0], ds))
      + TickBrings(env, read + 1, subs[1..])
  }

  /**
   * A tick makes one read for each subscription and handles what the reads bring, in order, to the
   * end or to the first look that finds the abort signal set.
   */
  ghost predicate TickTook(env: Env, p: Progress, subs: seq<Subscription>, to: Progress) {
    var brought := TickBrings(env, p.at.read, subs);
    && p.s.taken <= to.s.taken <= p.s.taken + brought
    && |to.s.taken| - |p.s.taken| == to.at.handled - p.at.handled
    && to.at.looked - p.at.looked
       == (to.at.read - p.at.read) + (to.at.handled - p.at.handled) + (if to.stopped then 1 else 0)
    && (forall i: nat :: p.at.looked <= i < to.at.looked && env.aborted(i) ==> to.stopped && i == to.at.looked - 1)
    && p.at.read <= to.at.read
    && if to.stopped then p.at.looked < to.at.looked && env.aborted(to.at.looked - 1)
       else to.s.taken == p.s.taken + brought && to.at.read == p.at.read + |subs|
  }

  /** Some look cuts a batch, or none does. */
  lemma {:induction false} SomeCut(env: Env, looked: nat, n: nat) returns (k: nat)
    ensures CutsAt(env, looked, n, k)
    decreases n
  {
    if n == 0 || env.aborted(looked) {
      k := 0;
    } else {
      var rest := SomeCut(env, looked + 1, n - 1);
      k := rest + 1;
      forall i: nat | looked <= i < looked + k ensures !env.aborted(i) {
        if i > looked { assert looked + 1 <= i < looked + 1 + rest; }
      }
    }
  }

  lemma {:induction false} TookIsTickTook(
    env: Env, p: Progress, sub: Subscription, ds: seq<Delivery>, k: nat, to: Progress)
    requires TickBrings(env, p.at.read, [sub]) == For(sub, ds) && !env.aborted(p.at.looked)
    requires CutsAt(env, p.at.looked + 1, |ds|, k) && Took(HandedOut(p, sub, ds), sub, ds, k, to)
    ensures TickTook(env, p, [sub], to)
  {
    assert For(sub, ds[..k]) <= For(sub, ds);
    assert k == |ds| ==> ds[..k] == ds;
  }

  lemma {:induction false} ReadTakes(env: Env, cfg: Config, p: Progress, sub: Subscription)
    requires !p.stopped
    ensures TickTook(env, p, [sub], ReadOne(env, cfg, p, sub))
  {
    assert TickBrings(env, p.at.read + 1, [sub][1..]) == [];
    assert p.s.taken + [] == p.s.taken;
    if !env.aborted(p.at.looked) && env.replies(p.at.read).ReadGave? {
      var ds := env.replies(p.at.read).deliveries;
      assert TickBrings(env, p.at.read, [sub]) == For(sub, ds);
      var got := HandedOut(p, sub, ds);
      var k := SomeCut(env, got.at.looked, |ds|);
      BatchTakesUpToTheAbort(env, cfg, got, sub, ds, k);
      TookIsTickTook(env, p, sub, ds, k, ReadOne(env, cfg, p, sub));
    }
  }

  lemma {:induction false} TookOneMore(
    env: Env, p: Progress, subs: seq<Subscription>, mid: Progress, to: Progress)
    requires subs != [] && !p.stopped && TickTook(env, p, [subs[0]], mid)
    requires if mid.stopped then to == mid else TickTook(env, mid, subs[1..], to)
    ensures TickTook(env, p, subs, to)
  {
    assert TickBrings(env, p.at.read + 1, [subs[0]][1..]) == [];
    var here := TickBrings(env, p.at.read, [subs[0]]);
    var rest := TickBrings(env, p.at.read + 1, subs[1..]);
    assert TickBrings(env, p.at.read, subs) == here + rest;
    assert p.s.taken + (here + rest) == (p.s.taken + here) + rest;
  }

  lemma {:induction false} TickTakes(env: Env, cfg: Config, p: Progress, subs: seq<Subscription>)
    requires !p.stopped
    ensures TickTook(env, p, subs, TickFrom(env, cfg, p, subs))
    decreases |subs|
  {
    if subs == [] {
      assert p.s.taken + [] == p.s.taken;
    } else {
      var mid := ReadOne(env, cfg, p, subs[0]);
      ReadTakes(env, cfg, p, subs[0]);
      if mid.stopped {
        assert TickFrom(env, cfg, mid, subs[1..]) == mid;
      } else {
        TickTakes(env, cfg, mid, subs[1..]);
      }
      TookOneMore(env, p, subs, mid, TickFrom(env, cfg, mid, subs[1..]));
    }
  }

  // ---------------------------------------------------------------------------------
  // Whole runs.

  /** What the reads of `n` ticks bring. */
  function RunBrings(env: Env, subs: seq<Subscription>, n: nat): seq<(Subscription, Delivery)> {
    if n == 0 then [] else RunBrings(env, subs, n - 1) + TickBrings(env, (n - 1) * |subs|, subs)
  }

  lemma {:induction false} TicksAppend(env: Env, cfg: Config, p: Progress, subs: seq<Subscription>, n: nat)
    requires n > 0
    ensures Ticks(env, cfg, p, subs, n)
         == TickFrom(env, cfg, Ticks(env, cfg, p, subs, n - 1).(stopped := false), subs)
    decreases n
  {
    var next := TickFrom(env, cfg, p.(stopped := false), subs);
    if n > 1 {
      TicksAppend(env, cfg, next, subs, n - 1);
    } else {
      assert Ticks(env, cfg, next, subs, 0) == next;
    }
  }

  const START: Progress := Progress(INIT, Cursor(0, 0, 0), false)

  /** In a run that meets no abort, every entry an answered read brings is handled, in order, each time once. */
  lemma {:induction false} EveryEntryIsHandled(env: Env, cfg: Config, subs: seq<Subscription>, n: nat)
    requires forall i: nat :: i < Ticks(env, cfg, START, subs, n).at.looked ==> !env.aborted(i)
    ensures TookAll(env, subs, n, Ticks(env, cfg, START, subs, n))
  {
    if n > 0 {
      var before := Ticks(env, cfg, START, subs, n - 1).(stopped := false);
      TicksAppend(env, cfg, START, subs, n);
      TickTakes(env, cfg, before, subs);
      var to := TickFrom(env, cfg, before, subs);
      assert before.at.looked <= to.at.looked;
      EveryEntryIsHandled(env, cfg, subs, n - 1);
      OneMoreTick(env, subs, n, before, to);
    }
  }

  /** The first `n` ticks have handled all they were given, and made one read for each subscription. */
  ghost predicate TookAll(env: Env, subs: seq<Subscription>, n: nat, to: Progress) {
    to.s.taken == RunBrings(env, subs, n) && to.at.read == n * |subs| && to.at.handled == |to.s.taken|
  }

  lemma {:induction false} OneMoreTick(env: Env, subs: seq<Subscription>, n: nat, p: Progress, to: Progress)
    requires n > 0 && TookAll(env, subs, n - 1, p) && TickTook(env, p, subs, to)
    requires forall i: nat :: i < to.at.looked ==> !env.aborted(i)
    ensures TookAll(env, subs, n, to)
  {
    assert (n - 1) * |subs| + |subs| == n * |subs|;
  }

  // ---------------------------------------------------------------------------------
  // What the handled entries come to.

  /** The counters a list of handled entries calls for; the jth of them met the jth answers. */
  function Outcomes(env: Env, taken: seq<(Subscription, Delivery)>): multiset<(string, Outcome)> {
    if taken == [] then multiset{}
    else
      var n := |taken| - 1;
      Outcomes(env, taken[..n]) + multiset{(taken[n].0.factType, OutcomeOf(taken[n].1, env.answers(n)))}
  }

  function FactTypes(taken: seq<(Subscription, Delivery)>): multiset<string> {
    if taken == [] then multiset{} else FactTypes(taken[..|taken| - 1]) + multiset{taken[|taken| - 1].0.factType}
  }

  function Successes(env: Env, taken: seq<(Subscription, Delivery)>): set<Ref> {
    if taken == [] then {}
    else
      var n := |taken| - 1;
      Successes(env, taken[..n])
      + if OutcomeOf(taken[n].1, env.answers(n)) == Done then {RefOf(taken[n].0, taken[n].1)} else {}
  }

  /** The counters and the handled entries are those of what was taken, and of nothing else. */
  ghost predicate Accounted(env: Env, p: Progress) {
    && p.at.handled == |p.s.taken|
    && p.s.metrics.received == FactTypes(p.s.taken)
    && p.s.metrics.outcomes == Outcomes(env, p.s.taken)
    && p.s.succeeded == Successes(env, p.s.taken)
  }

  lemma {:induction false} EntryIsAccounted(env: Env, cfg: Config, p: Progress, sub: Subscription, d: Delivery)
    requires Accounted(env, p)
    ensures Accounted(env, HandleOne(env, cfg, p, sub, d))
  {
    var a, n := env.answers(p.at.handled), |p.s.taken|;
    EntryIsTaken(cfg, p.s, sub, d, a);
    EntryCounters(cfg, p.s, sub, d, a);
    EntryMoves(cfg, p.s, sub, d, a);
    var taken := p.s.taken + [(sub, d)];
    assert taken[..n] == p.s.taken && taken[n] == (sub, d);
  }

  lemma {:induction false} BatchIsAccounted(env: Env, cfg: Config, p: Progress, sub: Subscription, ds: seq<Delivery>)
    requires Accounted(env, p)
    ensures Accounted(env, HandleAll(env, cfg, p, sub, ds))
    decreases |ds|
  {
    if ds != [] && !env.aborted(p.at.looked) {
      EntryIsAccounted(env, cfg, p, sub, ds[0]);
      BatchIsAccounted(env, cfg, HandleOne(env, cfg, p, sub, ds[0]), sub, ds[1..]);
    }
  }

  lemma {:induction false} TickIsAccounted(env: Env, cfg: Config, p: Progress, subs: seq<Subscription>)
    requires Accounted(env, p)
    ensures Accounted(env, TickFrom(env, cfg, p, subs))
    decreases |subs|
  {
    if subs != [] && !p.stopped {
      if !env.aborted(p.at.looked) && env.replies(p.at.read).ReadGave? {
        var ds := env.replies(p.at.read).deliveries;
        BatchIsAccounted(env, cfg, HandedOut(p, subs[0], ds), subs[0], ds);
      }
      TickIsAccounted(env, cfg, ReadOne(env, cfg, p, subs[0]), subs[1..]);
    }
  }

  lemma {:induction false} RunIsAccounted(env: Env, cfg: Config, p: Progress, subs: seq<Subscription>, n: nat)
    requires Accounted(env, p)
    ensures Accounted(env, Ticks(env, cfg, p, subs, n))
    decreases n
  {
    if n > 0 {
      TickIsAccounted(env, cfg, p.(stopped := false), subs);
      RunIsAccounted(env, cfg, TickFrom(env, cfg, p.(stopped := false), subs), subs, n - 1);
    }
  }

  /**
   * After any run, aborted or not: the counters are exactly those of the entries taken and of what
   * their handlers answered, and exactly the entries whose handler succeeded count as handled.
   */
  lemma {:induction false} CountersTellWhatWasHandled(env: Env, cfg: Config, subs: seq<Subscription>, n: nat)
    ensures Accounted(env, Ticks(env, cfg, START, subs, n))
  {
    RunIsAccounted(env, cfg, START, subs, n);
  }

  /** In a run that meets no abort, the counters are those of everything the reads bring. */
  lemma {:induction false} NothingBroughtIsSkipped(env: Env, cfg: Config, subs: seq<Subscription>, n: nat, j: nat)
    requires forall i: nat :: i < Ticks(env, cfg, START, subs, n).at.looked ==> !env.aborted(i)
    requires j < |RunBrings(env, subs, n)|
    ensures var s, brought := AfterRun(env, cfg, subs, n), RunBrings(env, subs, n);
            && s.metrics.received == FactTypes(brought) && s.metrics.outcomes == Outcomes(env, brought)
            && (OutcomeOf(brought[j].1, env.answers(j)) == Done ==> RefOf(brought[j].0, brought[j].1) in s.succeeded)
  {
    EveryEntryIsHandled(env, cfg, subs, n);
    CountersTellWhatWasHandled(env, cfg, subs, n);
    if OutcomeOf(RunBrings(env, subs, n)[j].1, env.answers(j)) == Done {
      SuccessCounts(env, RunBrings(env, subs, n), j);
    }
  }

  lemma {:induction false} SuccessCounts(env: Env, taken: seq<(Subscription, Delivery)>, j: nat)
    requires j < |taken| && OutcomeOf(taken[j].1, env.answers(j)) == Done
    ensures RefOf(taken[j].0, taken[j].1) in Successes(env, taken)
  {
    if j < |taken| - 1 { SuccessCounts(env, taken[..|taken| - 1], j); }
  }
}
