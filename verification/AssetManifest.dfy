/**
 * The asset mirror as a transition system: any number of `mirrorOne` tasks over one bucket,
 * each cut at its awaits, and one coverage manifest that they all read, modify and write back.
 */
module AssetManifest {
  import opened Wrappers
  import opened AsciiText

  // ---------------------------------------------------------------------------------
  // Object keys.

  datatype ImageType = Crest | Competition | Player | Manager | Stadium

  function TypeName(t: ImageType): (name: string)
    ensures '/' !in name
  {
    match t
    case Crest => "crest"
    case Competition => "competition"
    case Player => "player"
    case Manager => "manager"
    case Stadium => "stadium"
  }

  datatype ObjectKey = ObjectKey(kind: ImageType, entityId: string, ext: string)

  const MEDIA_PREFIX := "media/"
  const MANIFEST_KEY := MEDIA_PREFIX + "manifest/entity-imagery.json"

  function Suffix(k: ObjectKey): string { TypeName(k.kind) + ("/" + (k.entityId + ("." + k.ext))) }

  function MirrorObjectKey(k: ObjectKey): string { MEDIA_PREFIX + ("provider/" + Suffix(k)) }

  /** Different images get different objects, whatever is in the ids, as long as extensions hold no dot. */
  lemma ObjectKeysDiffer(k1: ObjectKey, k2: ObjectKey)
    requires '.' !in k1.ext && '.' !in k2.ext && MirrorObjectKey(k1) == MirrorObjectKey(k2)
    ensures k1 == k2
  {
    DropPrefix(MEDIA_PREFIX, "provider/" + Suffix(k1), "provider/" + Suffix(k2));
    DropPrefix("provider/", Suffix(k1), Suffix(k2));
    var rest1, rest2 := k1.entityId + ("." + k1.ext), k2.entityId + ("." + k2.ext);
    SplitAtFirst('/', TypeName(k1.kind), rest1, TypeName(k2.kind), rest2);
    SplitAtLast('.', k1.entityId, k1.ext, k2.entityId, k2.ext);
    assert TypeName(k1.kind)[0] == TypeName(k2.kind)[0] && |TypeName(k1.kind)| == |TypeName(k2.kind)|;
  }

  lemma {:induction false} KeyStandsIn(k: ObjectKey, folder: string)
    requires TypeName(k.kind) == folder
    ensures MirrorObjectKey(k) == "media/" + ("provider/" + (folder + ("/" + (k.entityId + ("." + k.ext)))))
  {
  }

  /** Where the consumer looks for the images of an entity, and for the manifest. */
  lemma {:induction false} ObjectKeysAreReadable(id: string, ext: string)
    ensures forall k: ObjectKey :: k.entityId == id && k.ext == ext ==>
              var folder := match k.kind
                            case Crest => "crest" case Competition => "competition" case Player => "player"
                            case Manager => "manager" case Stadium => "stadium";
              MirrorObjectKey(k) == "media/" + ("provider/" + (folder + ("/" + (id + ("." + ext)))))
    ensures MANIFEST_KEY == "media/manifest/entity-imagery.json"
  {
    forall k: ObjectKey | k.entityId == id && k.ext == ext
      ensures MirrorObjectKey(k) == "media/" + ("provider/" + (TypeName(k.kind) + ("/" + (id + ("." + ext)))))
    {
      KeyStandsIn(k, TypeName(k.kind));
    }
  }

  /** No image overwrites the manifest. */
  lemma ImagesAreNotTheManifest(k: ObjectKey)
    ensures MirrorObjectKey(k) != MANIFEST_KEY
  {
    assert MirrorObjectKey(k)[|MEDIA_PREFIX|] == 'p' && MANIFEST_KEY[|MEDIA_PREFIX|] == 'm';
  }

  // ---------------------------------------------------------------------------------
  // The manifest.

  datatype Entry = Entry(kind: ImageType, btl: Option<string>, provider: Option<string>)

  type Manifest = map<string, Entry>

  /** What the bucket holds under the manifest key. */
  datatype Text = Absent | Corrupt | Json(entities: Manifest)

  function ParseManifest(text: Text): Manifest { if text.Json? then text.entities else map[] }

  predicate Recorded(m: Manifest, k: ObjectKey) {
    k.entityId in m && m[k.entityId].kind == k.kind && m[k.entityId].provider == Some(k.ext)
  }

  function EntryFor(m: Manifest, k: ObjectKey): Entry {
    var btl := if k.entityId in m && m[k.entityId].btl != Some("") then m[k.entityId].btl else None;
    Entry(k.kind, btl, Some(k.ext))
  }

  function Patched(m: Manifest, k: ObjectKey): Manifest {
    if Recorded(m, k) then m else m[k.entityId := EntryFor(m, k)]
  }

  /** A patch records its image, keeps a bespoke layer and every other entity, and a second one changes nothing. */
  lemma PatchConverges(m: Manifest, k: ObjectKey)
    ensures Recorded(Patched(m, k), k) && Patched(Patched(m, k), k) == Patched(m, k)
    ensures forall e :: e != k.entityId ==> (e in Patched(m, k) <==> e in m) && (e in m ==> Patched(m, k)[e] == m[e])
    ensures Patched(m, k)[k.entityId].btl
         == if k.entityId in m && (m[k.entityId].btl != Some("") || Recorded(m, k)) then m[k.entityId].btl else None
  {
  }

  // ---------------------------------------------------------------------------------
  // Tasks.

  datatype Result = Unresolved | NoExtension | Present | Errored | NothingToDo | Done

  /** Each constructor names the await a task is suspended at. */
  datatype Stage =
    | Resolving
    | Heading(key: ObjectKey)
    | Fetching(key: ObjectKey)
    | Putting(key: ObjectKey)
    | Reading(key: ObjectKey)
    | Holding(key: ObjectKey, snapshot: Manifest)
    | Writing(key: ObjectKey, next: Manifest)
    | Ended(result: Result)

  datatype Task = Task(kind: ImageType, ext: Option<string>, stage: Stage)

  /** The identity service names an entity, or a request to the bucket ends. */
  datatype Reply = Found(entityId: string) | Told(write: Write)

  /** `patches` is history: the images whose manifest write landed, in order. */
  datatype State = State(objects: set<ObjectKey>, stored: Text, tasks: seq<Task>, patches: seq<ObjectKey>)

  datatype Step = Start(kind: ImageType, ext: Option<string>) | Proceed(task: nat, reply: Reply)

  predicate Enabled(s: State, step: Step) {
    step.Proceed? ==> step.task < |s.tasks| && !s.tasks[step.task].stage.Ended?
  }

  function NextStage(s: State, t: Task, reply: Reply): Stage {
    match t.stage
    case Resolving =>
      if !reply.Found? || reply.entityId == "" then Ended(Unresolved)
      else if t.ext.None? then Ended(NoExtension)
      else Heading(ObjectKey(t.kind, reply.entityId, t.ext.value))
    case Heading(key) =>
      if reply != Told(Carried) then Ended(Errored) else if key in s.objects then Ended(Present) else Fetching(key)
    case Fetching(key) => if reply == Told(Carried) then Putting(key) else Ended(Errored)
    case Putting(key) => if reply == Told(Carried) then Reading(key) else Ended(Errored)
    case Reading(key) => if reply == Told(Carried) then Holding(key, ParseManifest(s.stored)) else Ended(Errored)
    case Holding(key, snapshot) =>
      if Recorded(snapshot, key) then Ended(NothingToDo) else Writing(key, Patched(snapshot, key))
    case Writing(_, _) => if reply == Told(Carried) then Ended(Done) else Ended(Errored)
    case Ended(_) => t.stage
  }

  predicate Wrote(reply: Reply) { reply.Told? && Lands(reply.write) }

  function Apply(s: State, step: Step): State
    requires Enabled(s, step)
  {
    match step
    case Start(kind, ext) => s.(tasks := s.tasks + [Task(kind, ext, Resolving)])
    case Proceed(i, reply) =>
      var t := s.tasks[i];
      var moved := s.(tasks := s.tasks[i := t.(stage := NextStage(s, t, reply))]);
      if t.stage.Putting? && Wrote(reply) then moved.(objects := s.objects + {t.stage.key})
      else if t.stage.Writing? && Wrote(reply) then
        moved.(stored := Json(t.stage.next), patches := s.patches + [t.stage.key])
      else moved
  }

  predicate Legal(s: State, steps: seq<Step>)
    decreases |steps|
  {
    steps == [] || (Enabled(s, steps[0]) && Legal(Apply(s, steps[0]), steps[1..]))
  }

  function After(s: State, steps: seq<Step>): State
    requires Legal(s, steps)
    decreases |steps|
  {
    if steps == [] then s else After(Apply(s, steps[0]), steps[1..])
  }

  const EMPTY_BUCKET: State := State({}, Absent, [], [])

  lemma {:induction false} RunsJoin(s: State, a: seq<Step>, b: seq<Step>)
    requires Legal(s, a) && Legal(After(s, a), b)
    ensures Legal(s, a + b) && After(s, a + b) == After(After(s, a), b)
    decreases |a|
  {
    if a == [] {
      assert a + b == b;
    } else {
      assert (a + b)[0] == a[0] && (a + b)[1..] == a[1..] + b;
      RunsJoin(Apply(s, a[0]), a[1..], b);
    }
  }

  lemma ThreeSteps(s0: State, s1: State, s2: State, s3: State, a: Step, b: Step, c: Step)
    requires Enabled(s0, a) && s1 == Apply(s0, a)
    requires Enabled(s1, b) && s2 == Apply(s1, b)
    requires Enabled(s2, c) && s3 == Apply(s2, c)
    ensures Legal(s0, [a, b, c]) && After(s0, [a, b, c]) == s3
  {
    assert [a, b, c][1..] == [b, c] && [b, c][1..] == [c] && [c][1..] == [];
    assert Legal(s3, []) && After(s3, []) == s3;
    assert Legal(s2, [c]) && After(s2, [c]) == s3;
    assert Legal(s1, [b, c]) && After(s1, [b, c]) == s3;
  }

  lemma FourSteps(s0: State, s1: State, s2: State, s3: State, s4: State, steps: seq<Step>)
    requires |steps| == 4
    requires Enabled(s0, steps[0]) && s1 == Apply(s0, steps[0])
    requires Enabled(s1, steps[1]) && s2 == Apply(s1, steps[1])
    requires Enabled(s2, steps[2]) && s3 == Apply(s2, steps[2])
    requires Enabled(s3, steps[3]) && s4 == Apply(s3, steps[3])
    ensures Legal(s0, steps) && After(s0, steps) == s4
  {
    var (rest1, rest2, rest3) := (steps[1..], steps[2..], steps[3..]);
    assert rest1[1..] == rest2 && rest2[1..] == rest3 && rest3[1..] == [];
    assert Legal(s4, rest3[1..]) && After(s4, rest3[1..]) == s4;
    assert Legal(s3, rest3) && After(s3, rest3) == s4;
    assert Legal(s2, rest2) && After(s2, rest2) == s4;
    assert Legal(s1, rest1) && After(s1, rest1) == s4;
  }

  /** A pass of task `n` in which nothing fails, up to its write of the manifest. */
  function PassUpToWriting(n: nat, k: ObjectKey): seq<Step> {
    [Start(k.kind, Some(k.ext)), Proceed(n, Found(k.entityId)), Proceed(n, Told(Carried)), Proceed(n, Told(Carried))]
    + [Proceed(n, Told(Carried)), Proceed(n, Told(Carried)), Proceed(n, Told(Carried))]
  }

  /** The last task moves on without writing anything. */
  lemma LastTaskMoves(s: State, t: Task, reply: Reply)
    requires !t.stage.Ended? && !t.stage.Putting? && !t.stage.Writing?
    ensures var from := s.(tasks := s.tasks + [t]);
            Enabled(from, Proceed(|s.tasks|, reply))
            && Apply(from, Proceed(|s.tasks|, reply)) == s.(tasks := s.tasks + [t.(stage := NextStage(s, t, reply))])
  {
    assert (s.tasks + [t])[|s.tasks| := t.(stage := NextStage(s, t, reply))]
        == s.tasks + [t.(stage := NextStage(s, t, reply))];
  }

  lemma PassIsFetched(s: State, k: ObjectKey)
    requires k.entityId != "" && k !in s.objects
    ensures var n := |s.tasks|;
            var steps := [Start(k.kind, Some(k.ext)), Proceed(n, Found(k.entityId)), Proceed(n, Told(Carried)),
                          Proceed(n, Told(Carried))];
            Legal(s, steps) && After(s, steps) == s.(tasks := s.tasks + [Task(k.kind, Some(k.ext), Putting(k))])
  {
    var n, t := |s.tasks|, Task(k.kind, Some(k.ext), Resolving);
    var s1 := s.(tasks := s.tasks + [t]);
    var s2 := s.(tasks := s.tasks + [t.(stage := Heading(k))]);
    LastTaskMoves(s, t, Found(k.entityId));
    var s3 := s.(tasks := s.tasks + [t.(stage := Fetching(k))]);
    LastTaskMoves(s, t.(stage := Heading(k)), Told(Carried));
    var s4 := s.(tasks := s.tasks + [t.(stage := Putting(k))]);
    LastTaskMoves(s, t.(stage := Fetching(k)), Told(Carried));
    FourSteps(s, s1, s2, s3, s4,
              [Start(k.kind, Some(k.ext)), Proceed(n, Found(k.entityId)), Proceed(n, Told(Carried)),
               Proceed(n, Told(Carried))]);
  }

  lemma FetchedReachesWriting(s: State, n: nat, k: ObjectKey)
    requires n < |s.tasks| && s.tasks[n].stage == Putting(k) && !Recorded(ParseManifest(s.stored), k)
    ensures var steps := [Proceed(n, Told(Carried)), Proceed(n, Told(Carried)), Proceed(n, Told(Carried))];
            && Legal(s, steps)
            && After(s, steps)
               == s.(objects := s.objects + {k},
                     tasks := s.tasks[n := s.tasks[n].(stage := Writing(k, Patched(ParseManifest(s.stored), k)))])
  {
    var t, told := s.tasks[n], Proceed(n, Told(Carried));
    var s1 := s.(objects := s.objects + {k}, tasks := s.tasks[n := t.(stage := Reading(k))]);
    assert s1 == Apply(s, told);
    var s2 := s1.(tasks := s.tasks[n := t.(stage := Holding(k, ParseManifest(s.stored)))]);
    assert s2 == Apply(s1, told);
    var s3 := s1.(tasks := s.tasks[n := t.(stage := Writing(k, Patched(ParseManifest(s.stored), k)))]);
    assert s3 == Apply(s2, told);
    ThreeSteps(s, s1, s2, s3, told, told, told);
  }

  lemma PassReachesWriting(s: State, k: ObjectKey)
    requires k.entityId != "" && k !in s.objects && !Recorded(ParseManifest(s.stored), k)
    ensures Legal(s, PassUpToWriting(|s.tasks|, k))
    ensures After(s, PassUpToWriting(|s.tasks|, k))
         == s.(objects := s.objects + {k},
               tasks := s.tasks + [Task(k.kind, Some(k.ext), Writing(k, Patched(ParseManifest(s.stored), k)))])
  {
    var n, told := |s.tasks|, Proceed(|s.tasks|, Told(Carried));
    PassIsFetched(s, k);
    var a := [Start(k.kind, Some(k.ext)), Proceed(n, Found(k.entityId)), told, told];
    FetchedReachesWriting(After(s, a), n, k);
    RunsJoin(s, a, [told, told, told]);
    assert After(s, PassUpToWriting(n, k)).tasks
        == s.tasks + [Task(k.kind, Some(k.ext), Writing(k, Patched(ParseManifest(s.stored), k)))];
  }

  // ---------------------------------------------------------------------------------
  // Soundness: every provider entry names an object in the bucket.

  ghost predicate Backed(m: Manifest, objects: set<ObjectKey>) {
    forall e <- m :: m[e].provider.Some? ==> ObjectKey(m[e].kind, e, m[e].provider.value) in objects
  }

  ghost predicate StageBacked(stage: Stage, objects: set<ObjectKey>) {
    && (stage.Reading? || stage.Holding? || stage.Writing? ==> stage.key in objects)
    && (stage.Holding? ==> Backed(stage.snapshot, objects))
    && (stage.Writing? ==> Backed(stage.next, objects))
  }

  ghost predicate Sound(s: State) {
    && Backed(ParseManifest(s.stored), s.objects)
    && forall i :: 0 <= i < |s.tasks| ==> StageBacked(s.tasks[i].stage, s.objects)
  }

  lemma PatchKeepsBacked(m: Manifest, k: ObjectKey, objects: set<ObjectKey>)
    requires Backed(m, objects) && k in objects
    ensures Backed(Patched(m, k), objects)
  {
  }

  lemma StageMoves(s: State, t: Task, reply: Reply)
    requires StageBacked(t.stage, s.objects) && Backed(ParseManifest(s.stored), s.objects)
    ensures var objects := if t.stage.Putting? && Wrote(reply) then s.objects + {t.stage.key} else s.objects;
            StageBacked(NextStage(s, t, reply), objects)
  {
    if t.stage.Holding? { PatchKeepsBacked(t.stage.snapshot, t.stage.key, s.objects); }
  }

  lemma StepKeepsSound(s: State, step: Step)
    requires Sound(s) && Enabled(s, step)
    ensures Sound(Apply(s, step)) && s.objects <= Apply(s, step).objects
  {
    var to := Apply(s, step);
    if step.Proceed? {
      StageMoves(s, s.tasks[step.task], step.reply);
    }
    forall j | 0 <= j < |to.tasks|
      ensures StageBacked(to.tasks[j].stage, to.objects)
    {
      if j < |s.tasks| { assert StageBacked(s.tasks[j].stage, s.objects); }
    }
  }

  /**
   * However tasks race and whatever fails, every provider entry of the stored manifest, and of
   * every snapshot or write a task still holds, names an object already in the bucket.
   */
  lemma {:induction false} ManifestStaysSound(s: State, steps: seq<Step>)
    requires Sound(s) && Legal(s, steps)
    ensures Sound(After(s, steps)) && s.objects <= After(s, steps).objects
    decreases |steps|
  {
    if steps != [] {
      StepKeepsSound(s, steps[0]);
      ManifestStaysSound(Apply(s, steps[0]), steps[1..]);
    }
  }

  // ---------------------------------------------------------------------------------
  // What races lose, and when nothing is lost.

  predicate InWindow(stage: Stage) { stage.Holding? || stage.Writing? }

  /** A task reads the manifest while another is between its own read and its write. */
  predicate Overlaps(s: State, step: Step)
    requires Enabled(s, step)
  {
    && step.Proceed? && s.tasks[step.task].stage.Reading? && step.reply == Told(Carried)
    && exists j :: 0 <= j < |s.tasks| && InWindow(s.tasks[j].stage)
  }

  predicate NeverOverlaps(s: State, steps: seq<Step>)
    requires Legal(s, steps)
    decreases |steps|
  {
    steps == [] || (!Overlaps(s, steps[0]) && NeverOverlaps(Apply(s, steps[0]), steps[1..]))
  }

  function PatchAll(m: Manifest, keys: seq<ObjectKey>): Manifest {
    if keys == [] then m else Patched(PatchAll(m, keys[..|keys| - 1]), keys[|keys| - 1])
  }

  /** What the window holder will write is a patch of what is stored now. */
  ghost predicate StageCurrent(stage: Stage, stored: Manifest) {
    && (stage.Holding? ==> stage.snapshot == stored)
    && (stage.Writing? ==> stage.next == Patched(stored, stage.key))
  }

  /** The stored manifest is the initial one with the landed patches made one after another. */
  ghost predicate Serial(initial: Manifest, s: State) {
    && ParseManifest(s.stored) == PatchAll(initial, s.patches)
    && (forall i :: 0 <= i < |s.tasks| ==> StageCurrent(s.tasks[i].stage, ParseManifest(s.stored)))
    && (forall i, j :: 0 <= i < j < |s.tasks| && InWindow(s.tasks[i].stage) ==> !InWindow(s.tasks[j].stage))
  }

  lemma LandingKeepsSerial(initial: Manifest, s: State, i: nat, reply: Reply)
    requires Serial(initial, s) && Enabled(s, Proceed(i, reply)) && s.tasks[i].stage.Writing? && Wrote(reply)
    ensures Serial(initial, Apply(s, Proceed(i, reply)))
  {
    var to := Apply(s, Proceed(i, reply));
    assert to.patches[..|to.patches| - 1] == s.patches;
    forall j | 0 <= j < |to.tasks|
      ensures !InWindow(to.tasks[j].stage)
    {
      if j != i { assert to.tasks[j] == s.tasks[j]; }
    }
  }

  /** One stage on from a stage that is current: still current, and in the window only if it was or has just read. */
  lemma StageStaysCurrent(s: State, t: Task, reply: Reply)
    requires StageCurrent(t.stage, ParseManifest(s.stored))
    ensures var next := NextStage(s, t, reply);
            && StageCurrent(next, ParseManifest(s.stored))
            && (InWindow(next) ==> InWindow(t.stage) || (t.stage.Reading? && reply == Told(Carried)))
  {
  }

  lemma MovingKeepsSerial(initial: Manifest, s: State, i: nat, reply: Reply)
    requires Serial(initial, s) && Enabled(s, Proceed(i, reply)) && !Overlaps(s, Proceed(i, reply))
    requires !(s.tasks[i].stage.Writing? && Wrote(reply))
    ensures Serial(initial, Apply(s, Proceed(i, reply)))
  {
    var to := Apply(s, Proceed(i, reply));
    assert to.stored == s.stored && to.patches == s.patches;
    StageStaysCurrent(s, s.tasks[i], reply);
    assert to.tasks == s.tasks[i := s.tasks[i].(stage := NextStage(s, s.tasks[i], reply))];
  }

  lemma StepKeepsSerial(initial: Manifest, s: State, step: Step)
    requires Serial(initial, s) && Enabled(s, step) && !Overlaps(s, step)
    ensures Serial(initial, Apply(s, step))
  {
    if step.Proceed? {
      if s.tasks[step.task].stage.Writing? && Wrote(step.reply) {
        LandingKeepsSerial(initial, s, step.task, step.reply);
      } else {
        MovingKeepsSerial(initial, s, step.task, step.reply);
      }
    }
  }

  /**
   * When no task reads the manifest inside another's read-to-write window, the manifest is what
   * the landed patches make of the initial one in order: no update is lost.
   */
  lemma {:induction false} SerialPatchesLoseNothing(initial: Manifest, s: State, steps: seq<Step>)
    requires Serial(initial, s) && Legal(s, steps) && NeverOverlaps(s, steps)
    ensures ParseManifest(After(s, steps).stored) == PatchAll(initial, After(s, steps).patches)
    decreases |steps|
  {
    if steps != [] {
      StepKeepsSerial(initial, s, steps[0]);
      SerialPatchesLoseNothing(initial, Apply(s, steps[0]), steps[1..]);
    }
  }

  /** The last landed patch of an entity is what the manifest then says of it. */
  lemma {:induction false} LastPatchStands(m: Manifest, keys: seq<ObjectKey>, i: nat)
    requires i < |keys| && forall j :: i < j < |keys| ==> keys[j].entityId != keys[i].entityId
    ensures Recorded(PatchAll(m, keys), keys[i])
  {
    var n := |keys| - 1;
    if i < n {
      LastPatchStands(m, keys[..n], i);
      PatchConverges(PatchAll(m, keys[..n]), keys[n]);
    }
  }

  /** A landing write keeps what is stored of every other entity exactly when its snapshot still agreed there. */
  lemma LandingKeepsOthersIff(s: State, i: nat, snapshot: Manifest)
    requires Enabled(s, Proceed(i, Told(Carried))) && s.tasks[i].stage.Writing?
    requires s.tasks[i].stage.next == Patched(snapshot, s.tasks[i].stage.key)
    ensures var (now, to, e) := (ParseManifest(s.stored), ParseManifest(Apply(s, Proceed(i, Told(Carried))).stored),
                                 s.tasks[i].stage.key.entityId);
            (forall x <- now :: x != e ==> x in to && to[x] == now[x])
            <==> (forall x <- now :: x != e ==> x in snapshot && snapshot[x] == now[x])
  {
    PatchConverges(snapshot, s.tasks[i].stage.key);
  }

  /** The schedule in which two tasks read an empty manifest before either writes it. */
  function Race(k1: ObjectKey, k2: ObjectKey): seq<Step> {
    PassUpToWriting(0, k1) + (PassUpToWriting(1, k2) + [Proceed(0, Told(Carried)), Proceed(1, Told(Carried))])
  }

  /** From an empty bucket: the second write drops the first one's entry, its object still there and its task done. */
  lemma RacingPatchesDropOne(k1: ObjectKey, k2: ObjectKey)
    requires k1.entityId != k2.entityId && k1.entityId != "" && k2.entityId != ""
    ensures Legal(EMPTY_BUCKET, Race(k1, k2))
    ensures var to := After(EMPTY_BUCKET, Race(k1, k2));
            && |to.tasks| == 2 && to.tasks[0].stage == Ended(Done) && k1 in to.objects
            && !Recorded(ParseManifest(to.stored), k1) && Recorded(ParseManifest(to.stored), k2)
            && to.patches == [k1, k2] && ParseManifest(to.stored) != PatchAll(map[], to.patches)
  {
    PassReachesWriting(EMPTY_BUCKET, k1);
    var s1 := After(EMPTY_BUCKET, PassUpToWriting(0, k1));
    PassReachesWriting(s1, k2);
    var s2 := After(s1, PassUpToWriting(1, k2));
    var writes := [Proceed(0, Told(Carried)), Proceed(1, Told(Carried))];
    var s3 := Apply(s2, writes[0]);
    var s4 := Apply(s3, writes[1]);
    assert writes[1..] == [writes[1]] && writes[1..][1..] == [];
    assert Legal(s4, []) && After(s4, writes[1..][1..]) == s4;
    assert Legal(s3, writes[1..]) && After(s3, writes[1..]) == s4;
    assert Legal(s2, writes) && After(s2, writes) == s4;
    RunsJoin(s1, PassUpToWriting(1, k2), writes);
    RunsJoin(EMPTY_BUCKET, PassUpToWriting(0, k1), PassUpToWriting(1, k2) + writes);
    assert s4.patches == [k1, k2];
    LastPatchStands(map[], s4.patches, 0);
  }

  // ---------------------------------------------------------------------------------
  // A hole is permanent: a present object is skipped before its manifest entry is looked at.

  /** The task is not past its look at the bucket for this image, and holds nothing that records it. */
  predicate CannotRecord(stage: Stage, k: ObjectKey) {
    match stage
    case Resolving => true
    case Heading(_) => true
    case Fetching(key) => key != k
    case Putting(key) => key != k
    case Reading(key) => key != k
    case Holding(key, snapshot) => key != k && !Recorded(snapshot, k)
    case Writing(key, next) => key != k && !Recorded(next, k)
    case Ended(_) => true
  }

  /** The object is in the bucket, the manifest does not record it, and no task is about to. */
  ghost predicate Hole(s: State, k: ObjectKey) {
    && k in s.objects && !Recorded(ParseManifest(s.stored), k)
    && forall i :: 0 <= i < |s.tasks| ==> CannotRecord(s.tasks[i].stage, k)
  }

  lemma StepKeepsHole(s: State, step: Step, k: ObjectKey)
    requires Hole(s, k) && Enabled(s, step)
    ensures Hole(Apply(s, step), k)
  {
    var to := Apply(s, step);
    forall j | 0 <= j < |to.tasks| ensures CannotRecord(to.tasks[j].stage, k) {
      if j < |s.tasks| { assert CannotRecord(s.tasks[j].stage, k); }
    }
  }

  /**
   * An object in the bucket that the manifest does not record stays unrecorded after any
   * schedule whatever, however often its image, or another one of its entity, is mirrored.
   */
  lemma {:induction false} HolesAreNeverHealed(s: State, steps: seq<Step>, k: ObjectKey)
    requires Hole(s, k) && Legal(s, steps)
    ensures Hole(After(s, steps), k) && !Recorded(ParseManifest(After(s, steps).stored), k)
    decreases |steps|
  {
    if steps != [] {
      StepKeepsHole(s, steps[0], k);
      HolesAreNeverHealed(Apply(s, steps[0]), steps[1..], k);
    }
  }

  /** Every request of this task from here on is carried out and answered. */
  predicate Unfailed(steps: seq<Step>, i: nat) {
    forall step <- steps :: step.Proceed? && step.task == i ==> step.reply == Told(Carried)
  }

  predicate PastTheBucket(stage: Stage) {
    stage.Fetching? || stage.Putting? || stage.Reading? || stage.Holding? || stage.Writing?
    || stage == Ended(Done) || stage == Ended(NothingToDo)
  }

  lemma {:induction false} UnfailedTaskGoesOn(s: State, steps: seq<Step>, i: nat)
    requires Legal(s, steps) && Unfailed(steps, i) && i < |s.tasks|
    requires PastTheBucket(s.tasks[i].stage) || s.tasks[i].stage == Ended(Present)
    ensures i < |After(s, steps).tasks|
    ensures if s.tasks[i].stage == Ended(Present) then After(s, steps).tasks[i].stage == Ended(Present)
            else PastTheBucket(After(s, steps).tasks[i].stage)
    decreases |steps|
  {
    if steps != [] {
      assert steps[0] in steps;
      UnfailedTaskGoesOn(Apply(s, steps[0]), steps[1..], i);
    }
  }

  /**
   * A pass of which nothing fails, whatever other tasks do meanwhile, ends with the manifest
   * looked at exactly when its object was not in the bucket at its HEAD; otherwise it is skipped.
   */
  lemma PassReachesTheManifestIff(s: State, i: nat, steps: seq<Step>)
    requires Enabled(s, Proceed(i, Told(Carried))) && s.tasks[i].stage.Heading?
    requires Legal(Apply(s, Proceed(i, Told(Carried))), steps) && Unfailed(steps, i)
    ensures i < |After(Apply(s, Proceed(i, Told(Carried))), steps).tasks|
    ensures var end := After(Apply(s, Proceed(i, Told(Carried))), steps).tasks[i].stage;
            end.Ended? ==>
              && (end.result == Done || end.result == NothingToDo <==> s.tasks[i].stage.key !in s.objects)
              && (end.result == Present <==> s.tasks[i].stage.key in s.objects)
  {
    UnfailedTaskGoesOn(Apply(s, Proceed(i, Told(Carried))), steps, i);
  }

  /** From an empty bucket: the image is stored, and the write of the manifest fails. That is a hole. */
  lemma FailedManifestWriteLeavesAHole(k: ObjectKey)
    requires k.entityId != ""
    ensures var steps := PassUpToWriting(0, k) + [Proceed(0, Told(NotCarried))];
            Legal(EMPTY_BUCKET, steps) && Hole(After(EMPTY_BUCKET, steps), k)
  {
    PassReachesWriting(EMPTY_BUCKET, k);
    var s := After(EMPTY_BUCKET, PassUpToWriting(0, k));
    var last := [Proceed(0, Told(NotCarried))];
    assert last[1..] == [] && Legal(s, last) && After(s, last) == Apply(s, last[0]);
    RunsJoin(EMPTY_BUCKET, PassUpToWriting(0, k), last);
  }
}
