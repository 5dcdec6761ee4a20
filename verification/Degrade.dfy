/** Degrade posture: one observation gives an action, many actions give the most restrictive. */
module Degrade {
  import opened Wrappers
  import opened Quota

  datatype Action = Continue | SkipNonEssential | CachedOnly | CircuitOpen | Abort

  datatype Trigger = SoftCap | HardCap | ProviderOutageSeen | ProviderRateLimitSeen

  datatype Flag = Flag(trigger: Trigger, action: Action)

  datatype DegradeResult = DegradeResult(action: Action, flag: Option<Flag>)

  datatype Fallback = NoFallback | ProviderOutage | ProviderRateLimited

  function HandleQuotaPosture(snapshot: Snapshot): DegradeResult {
    if snapshot.posture == HardCapReached then DegradeResult(Abort, Some(Flag(HardCap, Abort)))
    else if snapshot.posture == SoftCapReached || snapshot.cachedOnlyMode then
      DegradeResult(CachedOnly, Some(Flag(SoftCap, CachedOnly)))
    else DegradeResult(Continue, None)
  }

  function HandleProviderOutage(fallback: Fallback): DegradeResult {
    if fallback != ProviderOutage then DegradeResult(Continue, None)
    else DegradeResult(CachedOnly, Some(Flag(ProviderOutageSeen, CachedOnly)))
  }

  function HandleProviderRateLimited(fallback: Fallback): DegradeResult {
    if fallback != ProviderRateLimited then DegradeResult(Continue, None)
    else DegradeResult(SkipNonEssential, Some(Flag(ProviderRateLimitSeen, SkipNonEssential)))
  }

  function FlagList(r: DegradeResult): seq<Flag> { if r.flag.Some? then [r.flag.value] else [] }

  /** Restrictiveness, as the handlers' order puts it. */
  function Rank(a: Action): nat {
    match a
    case Continue => 0
    case SkipNonEssential => 1
    case CachedOnly => 2
    case CircuitOpen => 3
    case Abort => 4
  }

  const ORDER: seq<Action> := [Abort, CircuitOpen, CachedOnly, SkipNonEssential, Continue]

  /** Scans the fixed order for the first action that was observed. */
  function FirstIn(order: seq<Action>, actions: seq<Action>): Action {
    if order == [] then Continue
    else if order[0] in actions then order[0]
    else FirstIn(order[1..], actions)
  }

  function MostRestrictive(actions: seq<Action>): Action { FirstIn(ORDER, actions) }

  /** The scan is the join: an observed action (or Continue) that no observed action outranks. */
  lemma MostRestrictiveIsJoin(actions: seq<Action>)
    ensures MostRestrictive(actions) in actions || (actions == [] && MostRestrictive(actions) == Continue)
    ensures forall a <- actions :: Rank(a) <= Rank(MostRestrictive(actions))
  {
    var tail3, tail2 := [SkipNonEssential, Continue], [CachedOnly, SkipNonEssential, Continue];
    var tail1 := [CircuitOpen, CachedOnly, SkipNonEssential, Continue];
    assert tail3[1..] == [Continue] && tail2[1..] == tail3 && tail1[1..] == tail2 && ORDER[1..] == tail1;
    assert FirstIn([Continue], actions) == Continue;
    assert FirstIn(tail3, actions) == if SkipNonEssential in actions then SkipNonEssential else Continue;
    assert FirstIn(tail2, actions) == if CachedOnly in actions then CachedOnly else FirstIn(tail3, actions);
    assert FirstIn(tail1, actions) == if CircuitOpen in actions then CircuitOpen else FirstIn(tail2, actions);
    assert FirstIn(ORDER, actions) == if Abort in actions then Abort else FirstIn(tail1, actions);
    if actions != [] {
      var first := actions[0];
      assert first in actions;
      match first { case Abort => case CircuitOpen => case CachedOnly => case SkipNonEssential => case Continue => }
    }
  }

  /** The scan answers an action exactly if it is observed, or nothing is, and nothing above it is. */
  lemma {:induction false} MostRestrictiveIff(actions: seq<Action>, a: Action)
    ensures MostRestrictive(actions) == a
            <==> (a in actions || (a == Continue && actions == [])) && forall x <- actions :: Rank(x) <= Rank(a)
  {
    MostRestrictiveIsJoin(actions);
    var m := MostRestrictive(actions);
    if a in actions && forall x <- actions :: Rank(x) <= Rank(a) { assert Rank(m) == Rank(a); }
  }

  /** Joining one more batch of observations into a mode. */
  lemma JoinNeverRelaxes(mode: Action, observed: seq<Action>)
    ensures Rank(mode) <= Rank(MostRestrictive([mode] + observed))
    ensures forall a <- observed :: Rank(a) <= Rank(MostRestrictive([mode] + observed))
    ensures MostRestrictive([mode] + observed) == Abort <==> mode == Abort || Abort in observed
  {
    MostRestrictiveIsJoin([mode] + observed);
  }

  /**
   * What the count of the day decides: at the hard cap a run aborts, from the soft cap on it works
   * from the cache, and it says so exactly then.
   */
  lemma {:induction false} CountDecidesTheAction(window: Window, calls: int, hardCap: int, softCap: int)
    ensures var r := HandleQuotaPosture(SnapshotFromCount(window, calls, hardCap, softCap));
            && (r.action == Abort <==> calls >= hardCap)
            && (r.action == CachedOnly <==> softCap <= calls < hardCap)
            && (r.action == Continue <==> calls < hardCap && calls < softCap)
            && r.flag == (if r.action == Abort then Some(Flag(HardCap, Abort))
                          else if r.action == CachedOnly then Some(Flag(SoftCap, CachedOnly))
                          else None)
  {
  }

  /** A handler raises a flag exactly if it does not just continue, and the flag names the action. */
  lemma {:induction false} FlagsNameTheirAction(snapshot: Snapshot, fallback: Fallback)
    ensures forall r <- [HandleQuotaPosture(snapshot), HandleProviderOutage(fallback),
                         HandleProviderRateLimited(fallback)] ::
              (r.flag.Some? <==> r.action != Continue) && (r.flag.Some? ==> r.flag.value.action == r.action)
  {
  }
}
