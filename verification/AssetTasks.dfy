/** How one mirror task ends, told from the replies that it met and from what it found in the bucket. */
module AssetTasks {
  import opened Wrappers
  import opened AssetManifest

  /**
   * What a task has met: the answer of the identity service, whether its object was there at its
   * HEAD, whether the manifest it read recorded its image, and whether a later request failed.
   */
  datatype Tale = Tale(named: Option<Reply>, present: Option<bool>, recorded: Option<bool>, failed: bool)

  const NOTHING_MET: Tale := Tale(None, None, None, false)

  function Met(s: State, step: Step, i: nat, t: Tale): Tale {
    if !(step.Proceed? && step.task == i && i < |s.tasks|) then t
    else
      var ok := step.reply == Told(Carried);
      match s.tasks[i].stage
      case Resolving => t.(named := Some(step.reply))
      case Heading(key) => if ok then t.(present := Some(key in s.objects)) else t.(failed := true)
      case Reading(key) =>
        if ok then t.(recorded := Some(Recorded(ParseManifest(s.stored), key))) else t.(failed := true)
      case Fetching(_) | Putting(_) => if ok then t else t.(failed := true)
      case Writing(_, _) => if ok then t else t.(failed := true)
      case Holding(_, _) => t
      case Ended(_) => t
  }

  function TaleOf(s: State, steps: seq<Step>, i: nat, t: Tale): Tale
    requires Legal(s, steps)
    decreases |steps|
  {
    if steps == [] then t else TaleOf(Apply(s, steps[0]), steps[1..], i, Met(s, steps[0], i, t))
  }

  /** The identity service has named an entity. */
  predicate Named(t: Tale) { t.named.Some? && t.named.value.Found? && t.named.value.entityId != "" }

  /** The image of a task whose entity is named. */
  predicate IsImage(k: ObjectKey, task: Task, t: Tale) {
    Named(t) && task.ext.Some? && k == ObjectKey(task.kind, t.named.value.entityId, task.ext.value)
  }

  ghost predicate Fits(s: State, task: Task, t: Tale) {
    match task.stage
    case Resolving => t == NOTHING_MET
    case Heading(k) => IsImage(k, task, t) && t.present.None? && t.recorded.None? && !t.failed
    case Fetching(k) => IsImage(k, task, t) && t.present == Some(false) && t.recorded.None? && !t.failed
    case Putting(k) => IsImage(k, task, t) && t.present == Some(false) && t.recorded.None? && !t.failed
    case Reading(k) =>
      IsImage(k, task, t) && t.present == Some(false) && t.recorded.None? && !t.failed && k in s.objects
    case Holding(k, snapshot) =>
      && IsImage(k, task, t) && t.present == Some(false) && !t.failed && k in s.objects
      && t.recorded == Some(Recorded(snapshot, k))
    case Writing(k, _) =>
      IsImage(k, task, t) && t.present == Some(false) && t.recorded == Some(false) && !t.failed && k in s.objects
    case Ended(result) => EndsAs(s, task, t, result)
  }

  /** Each result has its one cause; a task that is done has its object in the bucket and its patch landed. */
  ghost predicate EndsAs(s: State, task: Task, t: Tale, result: AssetManifest.Result) {
    && (result == Unresolved <==> !Named(t))
    && (result == NoExtension <==> Named(t) && task.ext.None?)
    && (result == Errored <==> t.failed)
    && (result == Present <==> t.present == Some(true))
    && (result == NothingToDo <==> t.recorded == Some(true))
    && (result == Done <==> t.recorded == Some(false) && !t.failed)
    && (result == Present || result == NothingToDo || result == Done ==>
          exists k :: IsImage(k, task, t) && k in s.objects && (result == Done ==> k in s.patches))
  }

  lemma {:induction false} EndingStands(s: State, to: State, task: Task, t: Tale, result: AssetManifest.Result)
    requires EndsAs(s, task, t, result) && s.objects <= to.objects && s.patches <= to.patches
    ensures EndsAs(to, task, t, result)
  {
    if result == Present || result == NothingToDo || result == Done {
      var k :| IsImage(k, task, t) && k in s.objects && (result == Done ==> k in s.patches);
      assert k in s.patches ==> k in to.patches;
    }
  }

  lemma {:induction false} OthersStayFitting(s: State, to: State, task: Task, t: Tale)
    requires Fits(s, task, t) && s.objects <= to.objects && s.patches <= to.patches
    ensures Fits(to, task, t)
  {
    if task.stage.Ended? { EndingStands(s, to, task, t, task.stage.result); }
  }

  lemma {:induction false} MovingFits(s: State, i: nat, reply: Reply, t: Tale)
    requires Enabled(s, Proceed(i, reply)) && Fits(s, s.tasks[i], t)
    ensures Fits(Apply(s, Proceed(i, reply)), Apply(s, Proceed(i, reply)).tasks[i], Met(s, Proceed(i, reply), i, t))
  {
    var to := Apply(s, Proceed(i, reply));
    var task, t' := to.tasks[i], Met(s, Proceed(i, reply), i, t);
    if task.stage.Ended? && task.stage.result in {Present, NothingToDo, Done} {
      var k := s.tasks[i].stage.key;
      assert IsImage(k, task, t') && k in to.objects;
      assert task.stage.result == Done ==> to.patches == s.patches + [k];
    }
  }

  lemma {:induction false} StepFits(s: State, step: Step, i: nat, t: Tale)
    requires Enabled(s, step) && i < |s.tasks| && Fits(s, s.tasks[i], t)
    ensures i < |Apply(s, step).tasks| && Fits(Apply(s, step), Apply(s, step).tasks[i], Met(s, step, i, t))
  {
    if step.Proceed? && step.task == i {
      MovingFits(s, i, step.reply, t);
    } else {
      assert Apply(s, step).tasks[i] == s.tasks[i];
      OthersStayFitting(s, Apply(s, step), s.tasks[i], t);
    }
  }

  lemma {:induction false} RunFits(s: State, steps: seq<Step>, i: nat, t: Tale)
    requires Legal(s, steps) && i < |s.tasks| && Fits(s, s.tasks[i], t)
    ensures i < |After(s, steps).tasks| && Fits(After(s, steps), After(s, steps).tasks[i], TaleOf(s, steps, i, t))
    ensures After(s, steps).tasks[i].kind == s.tasks[i].kind && After(s, steps).tasks[i].ext == s.tasks[i].ext
    decreases |steps|
  {
    if steps != [] {
      StepFits(s, steps[0], i, t);
      RunFits(Apply(s, steps[0]), steps[1..], i, Met(s, steps[0], i, t));
    }
  }

  /**
   * However tasks race, a task that ends ends as it was answered: each result has one cause, and
   * a task that is done has stored its object and landed its patch.
   */
  lemma {:induction false} TaskEndsAsAnswered(s: State, kind: ImageType, ext: Option<string>, steps: seq<Step>)
    requires Legal(Apply(s, Start(kind, ext)), steps)
    ensures var (from, n) := (Apply(s, Start(kind, ext)), |s.tasks|);
            var to := After(from, steps);
            && n < |to.tasks| && to.tasks[n].kind == kind && to.tasks[n].ext == ext
            && (to.tasks[n].stage.Ended? ==>
                  EndsAs(to, to.tasks[n], TaleOf(from, steps, n, NOTHING_MET), to.tasks[n].stage.result))
  {
    RunFits(Apply(s, Start(kind, ext)), steps, |s.tasks|, NOTHING_MET);
  }
}
