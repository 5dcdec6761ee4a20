/**
 * The NDJSON stream of a workflow run: the wakeup queue between the logger and the HTTP
 * consumer, and the life of a run that must end its stream with one `completed` line.
 */
module StreamQueue {
  import opened Wrappers

  datatype Line = Log(text: string) | Heartbeat | Completed(ok: bool)

  /** What the single consumer is doing: not asking, suspended in `next`, or woken and about to look again. */
  datatype Consumer = Idle | Suspended | Woken

  /** `accepted` and `delivered` are history. */
  datatype Queue = Queue(
    lines: seq<Line>, waiter: bool, closed: bool, consumer: Consumer,
    accepted: seq<Line>, delivered: seq<Line>, done: bool)

  const EMPTY_QUEUE: Queue := Queue([], false, false, Idle, [], [], false)

  function Wake(q: Queue): Queue { if q.waiter then q.(waiter := false, consumer := Woken) else q }

  function Push(q: Queue, line: Line): Queue {
    if q.closed then q else Wake(q.(lines := q.lines + [line], accepted := q.accepted + [line]))
  }

  function Close(q: Queue): Queue { if q.closed then q else Wake(q.(closed := true)) }

  /** The loop head of `next`: suspend, deliver the oldest line, or report the end. */
  function Poll(q: Queue): Queue {
    if q.lines == [] && !q.closed then q.(waiter := true, consumer := Suspended)
    else if q.lines != [] then q.(lines := q.lines[1..], consumer := Idle, delivered := q.delivered + [q.lines[0]])
    else q.(consumer := Idle, done := true)
  }

  predicate CanPoll(q: Queue) { !q.consumer.Suspended? && !q.done }

  class WorkflowStreamQueue {
    var queue: seq<Line>
    var waiter: bool
    var closed: bool
    var consumer: Consumer
    ghost var accepted: seq<Line>
    ghost var delivered: seq<Line>
    ghost var done: bool

    ghost function Now(): Queue reads this { Queue(queue, waiter, closed, consumer, accepted, delivered, done) }

    constructor ()
      ensures Now() == EMPTY_QUEUE
    {
      queue, waiter, closed, consumer := [], false, false, Idle;
      accepted, delivered, done := [], [], false;
    }

    method WakeWaiter()
      modifies this`waiter, this`consumer
      ensures Now() == Wake(old(Now()))
    {
      if waiter {
        waiter := false;
        consumer := Woken;
      }
    }

    method PushLine(line: Line)
      modifies this
      ensures Now() == Push(old(Now()), line)
    {
      if closed {
        return;
      }
      queue := queue + [line];
      accepted := accepted + [line];
      WakeWaiter();
    }

    method CloseQueue()
      modifies this
      ensures Now() == Close(old(Now()))
    {
      if closed {
        return;
      }
      closed := true;
      WakeWaiter();
    }

    /** One pass of the consumer's `next`; no answer means it is suspended. */
    method Next() returns (line: Option<Line>, ended: bool)
      requires CanPoll(Now())
      modifies this
      ensures Now() == Poll(old(Now()))
      ensures line == if old(queue) != [] then Some(old(queue)[0]) else None
      ensures ended <==> old(queue) == [] && closed
    {
      if queue == [] && !closed {
        waiter, consumer := true, Suspended;
        return None, false;
      }
      consumer := Idle;
      if queue != [] {
        line, ended := Some(queue[0]), false;
        delivered := delivered + [queue[0]];
        queue := queue[1..];
      } else {
        line, ended, done := None, true, true;
      }
    }
  }

  // ---------------------------------------------------------------------------------
  // The run that feeds the queue.

  /** `printable`: whether the error of the run can be turned into a reason. */
  datatype Life =
    | Running
    | Resolved
    | Rejected(printable: bool)
    | Announced(strays: nat)  // a completed line is out; `strays` lines were accepted after it
    | Silent                  // the error handler itself threw
    | Ended(announced: bool, strays: nat)

  datatype State = State(life: Life, q: Queue)

  datatype Step =
    | LogLine(text: string)
    | Beat
    | RunResolves
    | RunRejects(printable: bool)
    | Announce(wireThrows: bool, printable: bool)
    | Report
    | Finish
    | Consume

  const START: State := State(Running, EMPTY_QUEUE)

  /**
   * Heartbeats are timer callbacks: none runs between the settling of the run and the closing of the
   * queue, and none after.
   */
  predicate Enabled(s: State, step: Step) {
    match step
    case LogLine(_) => true
    case Beat | RunResolves | RunRejects(_) => s.life.Running?
    case Announce(_, _) => s.life.Resolved?
    case Report => s.life.Rejected?
    case Finish => s.life.Announced? || s.life.Silent?
    case Consume => CanPoll(s.q)
  }

  function Apply(s: State, step: Step): State
    requires Enabled(s, step)
  {
    match step
    case LogLine(text) =>
      State(if s.life.Announced? then Announced(s.life.strays + 1) else s.life, Push(s.q, Log(text)))
    case Beat => s.(q := Push(s.q, Heartbeat))
    case RunResolves => s.(life := Resolved)
    case RunRejects(printable) => s.(life := Rejected(printable))
    case Announce(wireThrows, printable) =>
      if wireThrows then s.(life := Rejected(printable)) else State(Announced(0), Push(s.q, Completed(true)))
    case Report =>
      if s.life.printable then State(Announced(0), Push(s.q, Completed(false))) else s.(life := Silent)
    case Finish => State(Ended(s.life.Announced?, if s.life.Announced? then s.life.strays else 0), Close(s.q))
    case Consume => s.(q := Poll(s.q))
  }

  predicate Legal(s: State, steps: seq<Step>)
    decreases |steps|
  {
    steps == [] || (Enabled(s, steps[0]) && Legal(Apply(s, steps[0]), steps[1..]))
  }

  function After(s: State, steps: seq<Step>): State
    requires Legal(s, steps)
    decreases |steps|
  {
    if steps == [] then s else After(Apply(s, steps[0]), steps[1..])
  }

  // ---------------------------------------------------------------------------------
  // Invariants.

  /** Nothing accepted is lost or reordered, and no wakeup is missed. */
  ghost predicate Flowing(q: Queue) {
    && q.delivered + q.lines == q.accepted
    && (q.waiter <==> q.consumer.Suspended?)
    && (q.waiter ==> q.lines == [] && !q.closed)
    && (q.done ==> q.closed && q.lines == [])
  }

  lemma PushKeepsFlowing(q: Queue, line: Line)
    requires Flowing(q)
    ensures Flowing(Push(q, line))
  {
    assert q.delivered + (q.lines + [line]) == (q.delivered + q.lines) + [line];
  }

  lemma PollKeepsFlowing(q: Queue)
    requires Flowing(q) && CanPoll(q)
    ensures Flowing(Poll(q)) && Poll(q).accepted == q.accepted && Poll(q).closed == q.closed
  {
    if q.lines != [] {
      assert q.lines == [q.lines[0]] + q.lines[1..];
      assert (q.delivered + [q.lines[0]]) + q.lines[1..] == q.delivered + q.lines;
    }
  }

  /** No line before `at` is an announcement, the one at `at` is, and none after it. */
  ghost predicate AnnouncedAt(lines: seq<Line>, at: nat) {
    && at < |lines| && lines[at].Completed?
    && forall i :: 0 <= i < |lines| && i != at ==> !lines[i].Completed?
  }

  ghost predicate NotAnnounced(lines: seq<Line>) { forall line <- lines :: !line.Completed? }

  /** The announcements made so far, and the stray lines behind them. */
  ghost predicate Told(s: State) {
    var lines := s.q.accepted;
    && (s.q.closed <==> s.life.Ended?)
    && match s.life
       case Announced(strays) => strays < |lines| && AnnouncedAt(lines, |lines| - 1 - strays)
       case Ended(announced, strays) =>
         if announced then strays < |lines| && AnnouncedAt(lines, |lines| - 1 - strays) else NotAnnounced(lines)
       case _ => NotAnnounced(lines)
  }

  ghost predicate Inv(s: State) { Flowing(s.q) && Told(s) }

  lemma StepKeepsInv(s: State, step: Step)
    requires Inv(s) && Enabled(s, step)
    ensures Inv(Apply(s, step))
    ensures s.q.closed ==> Apply(s, step).q.accepted == s.q.accepted && Apply(s, step).life == s.life
  {
    match step {
      case LogLine(text) => PushKeepsFlowing(s.q, Log(text));
      case Beat => PushKeepsFlowing(s.q, Heartbeat);
      case Announce(_, _) => PushKeepsFlowing(s.q, Completed(true));
      case Report => PushKeepsFlowing(s.q, Completed(false));
      case Consume => PollKeepsFlowing(s.q);
      case _ =>
    }
  }

  lemma {:induction false} RunKeepsInv(s: State, steps: seq<Step>)
    requires Inv(s) && Legal(s, steps)
    ensures Inv(After(s, steps))
    ensures s.q.closed ==> After(s, steps).q.accepted == s.q.accepted && After(s, steps).life == s.life
    decreases |steps|
  {
    if steps != [] {
      StepKeepsInv(s, steps[0]);
      RunKeepsInv(Apply(s, steps[0]), steps[1..]);
    }
  }

  // ---------------------------------------------------------------------------------
  // The theorems, for every schedule of log lines, timers, settlements and reads.

  /** Delivered then queued lines are the accepted ones, in order; a suspended consumer has nothing to read. */
  lemma NoLineIsLost(steps: seq<Step>)
    requires Legal(START, steps)
    ensures var q := After(START, steps).q;
            && q.delivered + q.lines == q.accepted
            && (q.consumer.Suspended? <==> q.waiter)
            && (q.waiter ==> q.lines == [] && !q.closed)
            && (q.done ==> q.delivered == q.accepted)
  {
    RunKeepsInv(START, steps);
  }

  /**
   * A closed stream holds exactly one announcement, unless the error of the run could not be
   * turned into a reason, and then it holds none; the announcement is its last line exactly
   * when nothing was logged between the announcement and the close.
   */
  lemma OneCompletedLine(steps: seq<Step>)
    requires Legal(START, steps) && After(START, steps).life.Ended?
    ensures var (lines, life) := (After(START, steps).q.accepted, After(START, steps).life);
            && (life.announced <==> exists at :: AnnouncedAt(lines, at))
            && (!life.announced <==> NotAnnounced(lines))
            && (life.announced ==> (lines[|lines| - 1].Completed? <==> life.strays == 0))
  {
    RunKeepsInv(START, steps);
    var s := After(START, steps);
    if s.life.announced {
      assert AnnouncedAt(s.q.accepted, |s.q.accepted| - 1 - s.life.strays);
      assert s.q.accepted[|s.q.accepted| - 1 - s.life.strays] in s.q.accepted;
    }
  }

  /** The run fails to announce exactly when some error of it, its own or its projection's, has no reason. */
  predicate SomeErrorUnprintable(s: State, steps: seq<Step>)
    requires Legal(s, steps)
    decreases |steps|
  {
    steps != [] && (
      (match steps[0]
       case RunRejects(printable) => !printable
       case Announce(wireThrows, printable) => wireThrows && !printable
       case _ => false)
      || SomeErrorUnprintable(Apply(s, steps[0]), steps[1..]))
  }

  predicate Doomed(s: State) {
    s.life == Rejected(false) || s.life.Silent? || (s.life.Ended? && !s.life.announced)
  }

  lemma {:induction false} DoomedIffUnprintable(s: State, steps: seq<Step>)
    requires Legal(s, steps)
    ensures Doomed(After(s, steps)) <==> Doomed(s) || SomeErrorUnprintable(s, steps)
    decreases |steps|
  {
    if steps != [] { DoomedIffUnprintable(Apply(s, steps[0]), steps[1..]); }
  }

  /**
   * A stream that closes carries its one `completed` line iff every error met could be printed,
   * `toWire` throwing or not.
   */
  lemma CompletedIffErrorsPrint(steps: seq<Step>)
    requires Legal(START, steps) && After(START, steps).life.Ended?
    ensures (exists at :: AnnouncedAt(After(START, steps).q.accepted, at)) <==> !SomeErrorUnprintable(START, steps)
  {
    OneCompletedLine(steps);
    DoomedIffUnprintable(START, steps);
  }

  /** The lines a step sends, told from the step and from how the last error could be printed. */
  function Says(step: Step, printable: bool): seq<Line> {
    match step
    case LogLine(text) => [Log(text)]
    case Beat => [Heartbeat]
    case Announce(wireThrows, _) => if wireThrows then [] else [Completed(true)]
    case Report => if printable then [Completed(false)] else []
    case _ => []
  }

  /** Whether the last error met can be printed. */
  function Printable(step: Step, before: bool): bool {
    match step
    case RunRejects(printable) => printable
    case Announce(wireThrows, printable) => if wireThrows then printable else before
    case _ => before
  }

  /** Everything a schedule sends before its `Finish`. */
  function Said(steps: seq<Step>, printable: bool): seq<Line>
    decreases |steps|
  {
    if steps == [] || steps[0].Finish? then []
    else
      var now := Printable(steps[0], printable);
      Says(steps[0], now) + Said(steps[1..], now)
  }

  ghost predicate Open(s: State, printable: bool) {
    !s.q.closed && !s.life.Ended? && (s.life.Rejected? ==> s.life.printable == printable)
  }

  lemma {:induction false} StepSays(s: State, step: Step, printable: bool)
    requires Enabled(s, step) && Open(s, printable) && !step.Finish?
    ensures var (to, now) := (Apply(s, step), Printable(step, printable));
            Open(to, now) && to.q.accepted == s.q.accepted + Says(step, now)
  {
    assert s.q.accepted + [] == s.q.accepted;
  }

  lemma {:induction false} JoinsLater(a: seq<Line>, b: seq<Line>, c: seq<Line>)
    ensures a + (b + c) == (a + b) + c
  {
  }

  lemma {:induction false} AcceptedIsSaid(s: State, steps: seq<Step>, printable: bool)
    requires Legal(s, steps) && Open(s, printable)
    ensures After(s, steps).q.accepted == s.q.accepted + Said(steps, printable)
    decreases |steps|
  {
    if steps != [] {
      var to, now := Apply(s, steps[0]), Printable(steps[0], printable);
      if steps[0].Finish? {
        ClosedAcceptsNothing(to, steps[1..]);
        assert to.q.accepted == s.q.accepted + [];
      } else {
        StepSays(s, steps[0], printable);
        AcceptedIsSaid(to, steps[1..], now);
        JoinsLater(s.q.accepted, Says(steps[0], now), Said(steps[1..], now));
      }
    }
  }

  lemma {:induction false} ClosedAcceptsNothing(s: State, steps: seq<Step>)
    requires s.q.closed && s.life.Ended? && Legal(s, steps)
    ensures After(s, steps).q.accepted == s.q.accepted
    decreases |steps|
  {
    if steps != [] { ClosedAcceptsNothing(Apply(s, steps[0]), steps[1..]); }
  }

  /**
   * What reaches the consumer of any schedule is a prefix of what was said, in order: each log line,
   * each heartbeat, `completed` with ok exactly for a run that resolved and could be put on the
   * wire, and with an error for one that did not.
   */
  lemma {:induction false} ConsumerReadsWhatWasSaid(steps: seq<Step>)
    requires Legal(START, steps)
    ensures var q, said := After(START, steps).q, Said(steps, true);
            && q.accepted == said && q.delivered <= said && (q.done ==> q.delivered == said)
            && (Completed(true) in said <==> exists p :: Announce(false, p) in BeforeFinish(steps))
  {
    AcceptedIsSaid(START, steps, true);
    NoLineIsLost(steps);
    SaysOkIff(steps, true);
  }

  function BeforeFinish(steps: seq<Step>): seq<Step>
    decreases |steps|
  {
    if steps == [] || steps[0].Finish? then [] else [steps[0]] + BeforeFinish(steps[1..])
  }

  lemma {:induction false} SaysOkIff(steps: seq<Step>, printable: bool)
    ensures Completed(true) in Said(steps, printable) <==> exists p :: Announce(false, p) in BeforeFinish(steps)
    decreases |steps|
  {
    if steps != [] && !steps[0].Finish? {
      SaysOkIff(steps[1..], Printable(steps[0], printable));
      assert BeforeFinish(steps) == [steps[0]] + BeforeFinish(steps[1..]);
      if steps[0].Announce? && !steps[0].wireThrows {
        assert steps[0] == Announce(false, steps[0].printable) && steps[0] in BeforeFinish(steps);
      }
    }
  }

  /** Nothing logged after the close reaches the consumer. */
  lemma LateLinesAreDropped(s: State, steps: seq<Step>)
    requires Inv(s) && s.life.Ended? && Legal(s, steps)
    ensures After(s, steps).q.accepted == s.q.accepted
  {
    RunKeepsInv(s, steps);
  }

  function Polls(q: Queue, n: nat): Queue
    decreases n
  {
    if n == 0 || !CanPoll(q) then q else Polls(Poll(q), n - 1)
  }

  /** Once the stream is closed, the consumer reads what is queued and then its end: one poll a line, and one more. */
  lemma {:induction false} ClosedStreamDrains(q: Queue)
    requires Flowing(q) && q.closed && !q.done
    ensures var end := Polls(q, |q.lines| + 1); end.done && end.delivered == q.accepted
    decreases |q.lines|
  {
    PollKeepsFlowing(q);
    if q.lines != [] {
      ClosedStreamDrains(Poll(q));
    } else {
      assert Polls(q, 1) == Polls(Poll(q), 0);
    }
  }

  /** A run that resolves can always go on to announce it and close, and one that rejects to report it and close. */
  lemma {:induction false} SettledRunCloses(s: State, printable: bool)
    requires s.life.Running? && !s.q.closed
    ensures var steps := [RunResolves, Announce(false, printable), Finish];
            Legal(s, steps) && After(s, steps).q.closed
            && After(s, steps).q.accepted == s.q.accepted + [Completed(true)]
    ensures var steps := [RunRejects(printable), Report, Finish];
            Legal(s, steps) && After(s, steps).q.closed
            && After(s, steps).q.accepted == s.q.accepted + (if printable then [Completed(false)] else [])
  {
    ThreeSteps(s, RunResolves, Announce(false, printable), Finish);
    ThreeSteps(s, RunRejects(printable), Report, Finish);
  }

  /** A run that rejects with an error that cannot be printed closes its stream without a `completed` line. */
  lemma UnprintableErrorIsSilent()
    ensures var steps := [RunRejects(false), Report, Finish];
            && Legal(START, steps)
            && After(START, steps).life == Ended(false, 0) && After(START, steps).q.closed
                && After(START, steps).q.accepted == []
  {
    ThreeSteps(START, RunRejects(false), Report, Finish);
  }

  /** A line logged between the announcement and the close comes after the `completed` line. */
  lemma StrayLineComesLast(text: string)
    ensures var steps := [RunRejects(true), Report] + [LogLine(text), Finish];
            && Legal(START, steps) && After(START, steps).life == Ended(true, 1)
            && After(START, steps).q.accepted == [Completed(false), Log(text)]
  {
    var s1 := Apply(START, RunRejects(true));
    var s2 := Apply(s1, Report);
    assert s2.q.accepted == [Completed(false)];
    var s3 := Apply(s2, LogLine(text));
    var steps := [RunRejects(true), Report] + [LogLine(text), Finish];
    assert steps[1..] == [Report, LogLine(text), Finish];
    ThreeSteps(s1, Report, LogLine(text), Finish);
  }

  lemma ThreeSteps(s: State, a: Step, b: Step, c: Step)
    requires Enabled(s, a) && Enabled(Apply(s, a), b) && Enabled(Apply(Apply(s, a), b), c)
    ensures Legal(s, [a, b, c]) && After(s, [a, b, c]) == Apply(Apply(Apply(s, a), b), c)
  {
    var s1 := Apply(s, a);
    var s2 := Apply(s1, b);
    var s3 := Apply(s2, c);
    assert [a, b, c][1..] == [b, c] && [b, c][1..] == [c] && [c][1..] == [];
    assert Legal(s3, []) && After(s3, []) == s3;
    assert Legal(s2, [c]) && After(s2, [c]) == s3;
    assert Legal(s1, [b, c]) && After(s1, [b, c]) == s3;
  }
}
