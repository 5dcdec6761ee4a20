/** What any sequence of backfill invocations spends, fetches and checkpoints, whatever the outside answers. */
module BackfillLedger {
  import opened Degrade
  import opened SeasonBackfill

  // ---------------------------------------------------------------------------------
  // The run budget.

  /** Calls and budget between two points of one target. */
  ghost predicate Spent(from: At, to: At) {
    && from.b.budgeted <= to.b.budgeted
    && from.b.used <= to.b.used && to.b.used - from.b.used <= to.b.budgeted - from.b.budgeted
    && to.w.remaining == from.w.remaining - (to.b.budgeted - from.b.budgeted)
    && |from.w.calls| <= |to.w.calls|
    && |to.w.calls| + to.w.remaining <= |from.w.calls| + from.w.remaining + (if to.w.crashed then 1 else 0)
    && (!to.w.crashed ==> |to.w.calls| + to.w.remaining == |from.w.calls| + from.w.remaining)
  }

  ghost predicate InBudget(w: World) { w.remaining >= (if w.crashed then -3 else -4) }

  lemma {:induction false} FixtureBudget(env: Env, at: At, id: string, j: nat)
    requires j <= 5 && !at.w.crashed && at.w.remaining >= 1 - j
    ensures Spent(at, ProcessFixture(env, at, id, j)) && InBudget(ProcessFixture(env, at, id, j).w)
    decreases 5 - j
  {
    if j < 5 {
      var next := FetchInto(env, at, Fetch(FIXTURE_WORKLOADS[j], id));
      assert Spent(at, next);
      if !Stopped(next) {
        FixtureBudget(env, next, id, j + 1);
      }
    }
  }

  lemma WalkOneBudget(env: Env, at: At, cursor: Cursor, index: nat)
    requires index < |cursor.fixtureIds| && !at.w.crashed && at.w.remaining >= 1
    ensures var to := WalkOne(env, at, cursor, index).0;
            Spent(at, to) && to.w.remaining >= -4 && |to.w.calls| + -4 <= |at.w.calls| + at.w.remaining
  {
    var begun := At(at.w.(begun := at.w.begun + [(KeyOf(cursor), cursor.fixtureIds[index])]), at.b);
    FixtureBudget(env, begun, cursor.fixtureIds[index], 0);
  }

  lemma {:induction false} WalkBudget(env: Env, at: At, cursor: Cursor, index: int)
    requires !at.w.crashed && at.w.remaining >= -4
    ensures var to := WalkFixtures(env, at, cursor, index).0;
            Spent(at, to) && to.w.remaining >= -4 && |to.w.calls| - 4 <= |at.w.calls| + at.w.remaining
    decreases |cursor.fixtureIds| - index
  {
    if index >= |cursor.fixtureIds| || at.w.remaining <= 0 || at.b.mode == Abort {
    } else if index < 0 {
      WalkBudget(env, at, cursor, index + 1);
    } else {
      var (next, cursor') := WalkOne(env, at, cursor, index);
      WalkOneBudget(env, at, cursor, index);
      if !next.w.crashed {
        WalkBudget(env, next, cursor', index + 1);
      }
    }
  }

  /** A step of the preparation spends what it books, and no more than it may. */
  ghost predicate PreparedWithin(s: Progress, to: Progress) {
    && Spent(s.at, to.at) && to.at.w.remaining >= -4 && (to.at.w.crashed ==> to.ended)
    && |to.at.w.calls| - 4 <= |s.at.w.calls| + s.at.w.remaining
  }

  lemma {:induction false} StandingsBudget(env: Env, target: Target, s: Progress)
    requires !s.at.w.crashed && s.at.w.remaining >= -4
    ensures PreparedWithin(s, StandingsStep(env, target, s))
  {
  }

  lemma {:induction false} DiscoveryBudget(env: Env, target: Target, s: Progress)
    requires !s.at.w.crashed && s.at.w.remaining >= -4
    ensures PreparedWithin(s, DiscoveryStep(env, target, s))
  {
  }

  lemma {:induction false} PrepareBudget(env: Env, target: Target, s: Progress)
    requires s.at.w.crashed ==> s.ended
    requires s.at.w.remaining >= -4
    ensures var to := Prepare(env, target, s);
            if s.at.w.crashed then to == s else PreparedWithin(s, to)
  {
    if !s.ended {
      StandingsBudget(env, target, s);
      var mid := StandingsStep(env, target, s);
      if !mid.ended {
        DiscoveryBudget(env, target, mid);
      }
    }
  }

  lemma TargetBudget(env: Env, target: Target, reset: bool, w: World)
    requires !w.crashed && w.remaining >= -4
    ensures var to := BackfillTarget(env, target, reset, w).at;
            && Spent(At(w, NO_BOOKS), to)
            && to.w.remaining >= -4 && |to.w.calls| - 4 <= |w.calls| + w.remaining
  {
    var entry := Entry(env, target, reset, w);
    PrepareBudget(env, target, entry);
    var s := Prepare(env, target, entry);
    if !s.ended && s.cursor.Some? {
      WalkBudget(env, s.at, s.cursor.value, s.cursor.value.nextIndex);
    }
  }

  function SumBudgeted(results: seq<Summary>): nat {
    if results == [] then 0 else SumBudgeted(results[..|results| - 1]) + results[|results| - 1].budgeted
  }

  function SumUsed(results: seq<Summary>): nat {
    if results == [] then 0 else SumUsed(results[..|results| - 1]) + results[|results| - 1].used
  }

  function SumProcessed(results: seq<Summary>): nat {
    if results == [] then 0 else SumProcessed(results[..|results| - 1]) + results[|results| - 1].processed
  }

  ghost predicate Totalled(r: Report) {
    && r.budgeted == SumBudgeted(r.targets) && r.used == SumUsed(r.targets) && r.processed == SumProcessed(r.targets)
    && forall t <- r.targets :: t.used <= t.budgeted
  }

  ghost predicate RunInBudget(maxCalls: int, run: Run) {
    && run.w.remaining == maxCalls - run.report.budgeted
    && run.w.remaining >= -4
    && |run.w.calls| <= maxCalls + 4
    && (!run.w.crashed ==> |run.w.calls| == run.report.budgeted)
    && Totalled(run.report)
  }

  lemma SumsAppend(results: seq<Summary>, x: Summary)
    ensures SumBudgeted(results + [x]) == SumBudgeted(results) + x.budgeted
    ensures SumUsed(results + [x]) == SumUsed(results) + x.used
    ensures SumProcessed(results + [x]) == SumProcessed(results) + x.processed
  {
    assert (results + [x])[..|results|] == results;
  }

  lemma OutcomeIsTotalled(r: Report, out: TargetOutcome, remaining: int)
    requires Totalled(r) && out.summary.used <= out.summary.budgeted
    ensures Totalled(AddOutcome(r, out, remaining))
    ensures AddOutcome(r, out, remaining).budgeted == r.budgeted + out.summary.budgeted
  {
    SumsAppend(r.targets, out.summary);
    var to := AddOutcome(r, out, remaining);
    assert to.targets == r.targets + [out.summary];
    forall t | t in to.targets ensures t.used <= t.budgeted {
      assert t in r.targets || t == out.summary;
    }
  }

  lemma RunOneBudget(env: Env, target: Target, reset: bool, maxCalls: int, run: Run)
    requires RunInBudget(maxCalls, run) && !run.w.crashed
    ensures RunInBudget(maxCalls, RunOne(env, target, reset, run))
  {
    if run.report.aborted || run.report.halted {
      SumsAppend(run.report.targets, SkippedSummary(target, ReadCursor(env, run.w, target, reset).1));
    } else {
      TargetBudget(env, target, reset, run.w);
      var s := BackfillTarget(env, target, reset, run.w);
      OutcomeIsTotalled(run.report, Finalize(target, s.cursor, s.at.b), s.at.w.remaining);
    }
  }

  lemma {:induction false} RunTargetsBudget(env: Env, targets: seq<Target>, reset: bool, maxCalls: int, run: Run)
    requires RunInBudget(maxCalls, run)
    ensures RunInBudget(maxCalls, RunTargets(env, targets, reset, run))
    decreases |targets|
  {
    if targets != [] && !run.w.crashed {
      RunOneBudget(env, targets[0], reset, maxCalls, run);
      RunTargetsBudget(env, targets[1..], reset, maxCalls, RunOne(env, targets[0], reset, run));
    }
  }

  /**
   * One invocation budgets at most four calls over its ceiling, over all its targets and
   * whatever is answered; its totals are the sums over the targets, and no target uses more
   * than it budgets. Even an invocation that throws attempts no more than that many calls.
   */
  lemma BudgetOverrunsByAtMostFour(env: Env, targets: seq<Target>, reset: bool, maxCalls: int, cursors: Cursors)
    requires maxCalls > 0
    ensures var run := RunWorkflow(env, targets, reset, maxCalls, cursors);
            && |run.w.calls| <= maxCalls + 4
            && (!run.w.crashed ==> run.report.budgeted == |run.w.calls|)
            && run.report.budgeted <= maxCalls + 4 && run.report.used <= run.report.budgeted
            && run.report.budgeted == SumBudgeted(run.report.targets)
            && run.report.used == SumUsed(run.report.targets)
            && run.report.processed == SumProcessed(run.report.targets)
            && forall t <- run.report.targets :: t.used <= t.budgeted
  {
    RunTargetsBudget(env, targets, reset, maxCalls, Run(FreshWorld(cursors, maxCalls), EMPTY_REPORT));
    UsedWithinBudgeted(RunWorkflow(env, targets, reset, maxCalls, cursors).report.targets);
  }

  lemma {:induction false} UsedWithinBudgeted(results: seq<Summary>)
    requires forall t <- results :: t.used <= t.budgeted
    ensures SumUsed(results) <= SumBudgeted(results)
  {
    if results != [] {
      UsedWithinBudgeted(results[..|results| - 1]);
    }
  }

  /** Once the run has aborted or halted, the remaining targets make no call and report none. */
  lemma {:induction false} LaterTargetsSpendNothing(env: Env, targets: seq<Target>, reset: bool, run: Run)
    requires run.report.aborted || run.report.halted
    ensures var to := RunTargets(env, targets, reset, run);
            && to.w.calls == run.w.calls && to.w.begun == run.w.begun && to.w.saved == run.w.saved
            && to.w.cursors == run.w.cursors && to.w.remaining == run.w.remaining
            && to.report.aborted == run.report.aborted && to.report.halted == run.report.halted
            && run.report.targets <= to.report.targets
            && forall i :: |run.report.targets| <= i < |to.report.targets| ==>
                 to.report.targets[i].budgeted == 0 && to.report.targets[i].used == 0
                     && to.report.targets[i].processed == 0
    decreases |targets|
  {
    if targets != [] && !run.w.crashed {
      var next := RunOne(env, targets[0], reset, run);
      LaterTargetsSpendNothing(env, targets[1..], reset, next);
      assert next.report.targets[..|run.report.targets|] == run.report.targets;
    }
  }
}
