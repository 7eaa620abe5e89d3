/** What one reconcile of an instance does when nothing disturbs it. */
module Undisturbed {
  import opened Text
  import opened Naming
  import opened Versions
  import opened Cluster
  import opened Safety
  import opened Effects
  import opened Housing

  // ---------------------------------------------------------------- undisturbed steps

  /** One step of the reconcile of `n` with every call answered, or its build making progress. */
  predicate Quiet(s: State, n: string, h: string, ev: Event) {
    match ev
    case Work(m, io) => m == n && n in s.workers && io.fault.Done? && io.latest == h
    case Tick(_) => true
    case JobReport(j, _, succeeded, failed) => j == JobName(n) && (failed ==> succeeded)
    case JobRemoved(j) => j == JobName(n) && n in s.workers && s.workers[n].pc == WaitGone
    case _ => false
  }

  predicate KeyOf(key: ObjectKey, n: string) { exists k: Slot :: key == SlotKey(k, n) }

  /** Those of the six objects of `n` that exist. */
  function OwnObjects(objects: map<ObjectKey, ClusterObject>, n: string): map<ObjectKey, ClusterObject> {
    map key | key in objects && KeyOf(key, n) :: objects[key]
  }

  lemma OwnSlot(objects: map<ObjectKey, ClusterObject>, n: string, k: Slot)
    ensures SlotKey(k, n) in OwnObjects(objects, n) <==> SlotKey(k, n) in objects
    ensures SlotKey(k, n) in objects ==> OwnObjects(objects, n)[SlotKey(k, n)] == objects[SlotKey(k, n)]
  {
    assert KeyOf(SlotKey(k, n), n);
  }

  lemma OwnPut(objects: map<ObjectKey, ClusterObject>, n: string, k: Slot, o: ClusterObject)
    ensures OwnObjects(objects[SlotKey(k, n) := o], n) == OwnObjects(objects, n)[SlotKey(k, n) := o]
  {
    assert KeyOf(SlotKey(k, n), n);
    hide SlotKey, KeyOf;
  }

  lemma DeployedOwn(objects: map<ObjectKey, ClusterObject>, n: string, spec: Spec, i: Instance, upTo: nat)
    ensures Deployed(OwnObjects(objects, n), n, spec, i, upTo) <==> Deployed(objects, n, spec, i, upTo)
  {
    hide SlotKey, OwnObjects, SlotObject;
    forall k: Slot ensures SlotKey(k, n) in OwnObjects(objects, n) <==> SlotKey(k, n) in objects { OwnSlot(objects, n, k); }
    forall k: Slot | SlotKey(k, n) in objects ensures OwnObjects(objects, n)[SlotKey(k, n)] == objects[SlotKey(k, n)] { OwnSlot(objects, n, k); }
  }

  /** What a reconcile of `n` can see and change. */
  datatype View = View(i: Instance, job: Option<Job>, builds: seq<string>, objects: map<ObjectKey, ClusterObject>)

  function ViewOf(s: State, n: string): View
    requires n in s.insts
  {
    View(s.insts[n], if JobName(n) in s.jobs then Some(s.jobs[JobName(n)]) else None,
         BuildsOf(s, JobName(n)), OwnObjects(s.objects, n))
  }

  predicate Deployed(objects: map<ObjectKey, ClusterObject>, n: string, spec: Spec, i: Instance, upTo: nat) {
    forall k: Slot | k < upTo :: SlotKey(k, n) in objects && objects[SlotKey(k, n)] == SlotObject(k, spec, i)
  }

  /** The image, host and path of an instance depend on its git settings alone. */
  predicate SameIdentity(a: Instance, b: Instance) {
    a.labels == b.labels && a.desired == b.desired && a.git.branch == b.git.branch
    && a.git.pullRequestNumber == b.git.pullRequestNumber && !b.deleting
  }

  predicate Unmoved(v0: View, v: View) {
    v.i == v0.i.(version := v.i.version, finalizer := v.i.finalizer) && v.builds == v0.builds && v.objects == v0.objects
  }

  predicate Marked(v0: View, v: View, phase: Phase) {
    v.i.git == v0.i.git && v.i.phase == phase && Tags(v.i.built) == Tags(v0.i.built) && v.i.url == v0.i.url
  }

  predicate BuiltFor(v0: View, v: View, spec: Spec) {
    v.builds == v0.builds + [Image(spec, v0.i)] && v.objects == v0.objects && v.i.git == v0.i.git
  }

  predicate Answered(v0: View, v: View, n: string, spec: Spec, phase: Phase) {
    && v.i.git == v0.i.git && v.i.phase == phase && Tags(v.i.built) == Tags(v0.i.built) && v.builds == v0.builds
    && if v0.i.git.commitHash == "" then v.objects == v0.objects && v.i.url == v0.i.url
       else Deployed(v.objects, n, spec, v0.i, 6) && v.i.url == PublicUrl(spec, v0.i)
  }

  predicate Resting(v0: View) { v0.i.phase != Pending && v0.i.phase != Deploying }

  predicate Rehashed(v0: View, v: View, h: string, phase: Phase) {
    && v.i.git == v0.i.git.(commitHash := h) && v.i.phase == phase && Tags(v.i.built) == Tags(v0.i.built)
    && v.builds == v0.builds && v.objects == v0.objects
  }

  /** How far a reconcile that started from `v0` has come when it is at `pc`. */
  predicate Reached(v0: View, v: View, n: string, h: string, spec: Spec, pc: Pc, mem: Instance) {
    var building := v0.i.phase == Pending && Unbuilt(v0.i);
    var deploying := v0.i.phase == Deploying && v0.i.git.commitHash != "";
    match pc
    case AddFinalizer => Unmoved(v0, v)
    case LoadEnv => Unmoved(v0, v)
    case JobCheck => building && Unmoved(v0, v)
    case MarkBuilding => building && Unmoved(v0, v)
    case StartJob => building && v.i.git == v0.i.git && v.builds == v0.builds && v.objects == v0.objects
    case DeleteJob => building && v.i.git == v0.i.git && v.builds == v0.builds && v.objects == v0.objects && v.job.Some?
    case WaitGone => building && v.i.git == v0.i.git && v.builds == v0.builds && v.objects == v0.objects
    case CreateJob => building && v.i.git == v0.i.git && v.builds == v0.builds && v.objects == v0.objects && v.job.None?
    case Poll(_) => building && BuiltFor(v0, v, spec) && v.job.Some? && (v.job.value.failed ==> v.job.value.succeeded)
    case MarkDeploying(added) =>
      if added.Some? then building && BuiltFor(v0, v, spec)
      else v0.i.phase == Pending && !Unbuilt(v0.i) && Unmoved(v0, v)
    case BeginDeploy => deploying && Unmoved(v0, v)
    case Authenticate => deploying && Marked(v0, v, Deploying) && v.builds == v0.builds
    case Put(k) => deploying && Marked(v0, v, Deploying) && v.builds == v0.builds && Deployed(v.objects, n, spec, v0.i, k)
    case PublishUrl => deploying && Marked(v0, v, Deploying) && v.builds == v0.builds && Deployed(v.objects, n, spec, v0.i, 6)
    case Answer => v0.i.phase == Deploying && Answered(v0, v, n, spec, Deploying)
    case MarkRunning => v0.i.phase == Deploying && Answered(v0, v, n, spec, Deploying)
    case Latest => Resting(v0) && Unmoved(v0, v)
    case WriteHash => Resting(v0) && Unmoved(v0, v) && v0.i.git.commitHash != h && mem.git.commitHash == h
    case MarkPending => Resting(v0) && Rehashed(v0, v, h, v0.i.phase) && v0.i.git.commitHash != h
    case _ => false
  }

  /** Everything one undisturbed reconcile has done when it is over. */
  predicate Accomplished(v0: View, v: View, n: string, h: string, spec: Spec) {
    && SameIdentity(v0.i, v.i) && v.i.finalizer
    && match v0.i.phase {
      case Pending =>
        && v.i.git == v0.i.git && v.i.phase == Deploying
        && if Unbuilt(v0.i) then BuiltFor(v0, v, spec)
           else Tags(v.i.built) == Tags(v0.i.built) && v.builds == v0.builds && v.objects == v0.objects
      case Deploying => Answered(v0, v, n, spec, Running)
      case _ => if v0.i.git.commitHash == h then Unmoved(v0, v) else Rehashed(v0, v, h, Pending)
    }
  }

  /** The instance is there in both, and its environment has kept its settings. */
  predicate Here(s0: State, s: State, n: string) {
    && n in s0.insts && n in s.insts
    && var uid := s0.insts[n].labels.environment;
       uid in s0.specs && uid in s.specs && s.specs[uid] == s0.specs[uid]
  }

  /** The reconcile of `n` that began in `s0` has come as far as `s` says. */
  predicate QuietInv(s0: State, s: State, n: string, h: string) {
    && Here(s0, s, n) && SameIdentity(s0.insts[n], s.insts[n])
    && var spec := s.specs[s0.insts[n].labels.environment];
       if n in s.workers then
         && s.workers[n].base == s.insts[n]
         && Reached(ViewOf(s0, n), ViewOf(s, n), n, h, spec, s.workers[n].pc, s.workers[n].mem)
       else Accomplished(ViewOf(s0, n), ViewOf(s, n), n, h, spec)
  }

  // ---------------------------------------------------------------- building blocks

  lemma StoredTagsSame(built: seq<BuiltVersion>)
    ensures Tags(StoredAll(built)) == Tags(built)
  {
    forall t | t in Tags(StoredAll(built)) ensures t in Tags(built) {
      var v :| v in StoredAll(built) && v.tag == t;
      StoredTags(built, v);
    }
    forall t | t in Tags(built) ensures t in Tags(StoredAll(built)) {
      var i :| 0 <= i < |built| && built[i].tag == t;
      assert StoredAll(built)[i] in StoredAll(built);
    }
  }

  lemma TagsHave(built: seq<BuiltVersion>, tag: string)
    ensures HasTag(built, tag) <==> tag in Tags(built)
  {
  }

  /** A worker that holds the stored version has its write accepted. */
  lemma StatusLands(s: State, n: string, w: Worker, io: Io)
    requires AtPc(w) && n in s.insts && w.base == s.insts[n] && io.fault.Done? && WritesStatus(w.pc)
    ensures Accepts(s, n, w.mem, io.fault)
    ensures StatusUpdate(s, n, w.mem, io.fault).insts == s.insts[n := WithStatus(w.base, w.mem, s.next)]
    ensures Written(s, n, w, io).insts == s.insts[n := WithStatus(w.base, w.mem, s.next)]
  {
  }

  function AfterLanding(pc: Pc): Option<Pc> {
    match pc
    case MarkBuilding => Some(StartJob)
    case BeginDeploy => Some(Authenticate)
    case PublishUrl => Some(Answer)
    case AddFinalizer => Some(LoadEnv)
    case WriteHash => Some(MarkPending)
    case _ => None
  }

  lemma StatusMoves(s: State, n: string, w: Worker, io: Io)
    requires AtPc(w) && n in s.insts && w.base == s.insts[n] && io.fault.Done? && WritesStatus(w.pc)
    ensures var i := WithStatus(w.base, w.mem, s.next); var pc := AfterLanding(w.pc);
            Do(s, n, w, io).1 == if pc.Some? then Some(Worker(pc.value, i, i, w.spec)) else None
  {
    StatusLands(s, n, w, io);
    hide StatusUpdate, WithStatus, Accepts, FinishBuild, AtPc;
  }

  lemma SpecLands(s: State, n: string, w: Worker, io: Io)
    requires AtPc(w) && n in s.insts && w.base == s.insts[n] && io.fault.Done? && (w.pc.AddFinalizer? || w.pc.WriteHash?)
    ensures Accepts(s, n, w.mem, io.fault)
    ensures SpecUpdate(s, n, w.mem, io.fault).insts == s.insts[n := WithSpec(w.base, w.mem, s.next)]
    ensures Written(s, n, w, io).insts == s.insts[n := WithSpec(w.base, w.mem, s.next)]
  {
  }

  lemma SpecMoves(s: State, n: string, w: Worker, io: Io)
    requires AtPc(w) && n in s.insts && w.base == s.insts[n] && io.fault.Done? && (w.pc.AddFinalizer? || w.pc.WriteHash?)
    ensures var i := WithSpec(w.base, w.mem, s.next); var mem := if w.pc.WriteHash? then i.(phase := Pending) else i;
            Do(s, n, w, io).1 == Some(Worker(AfterLanding(w.pc).value, i, mem, w.spec))
  {
    SpecLands(s, n, w, io);
    hide SpecUpdate, WithSpec, Accepts, AtPc;
  }

  // ---------------------------------------------------------------- one step

  predicate HasEnv(s: State, uid: nat) { exists e :: e in s.envs && s.envs[e].uid == uid }

  ghost predicate Going(s0: State, s: State, n: string, h: string, io: Io) {
    && Inv(s) && QuietInv(s0, s, n, h) && n in s.workers && io.fault.Done? && io.latest == h
    && HasEnv(s, s0.insts[n].labels.environment) && s0.insts[n].git.pullRequestNumber.Some?
  }

  function SpecOf(s: State, n: string): Spec
    requires n in s.insts && s.insts[n].labels.environment in s.specs
  {
    s.specs[s.insts[n].labels.environment]
  }

  /** What is known of a worker in the middle of an undisturbed reconcile. */
  lemma GoingFacts(s0: State, s: State, n: string, h: string, io: Io)
    requires Going(s0, s, n, h, io)
    ensures Here(s0, s, n) && n in s0.insts && n in s.insts && s0.insts[n].labels.environment in s0.specs
    ensures HasEnv(s, s0.insts[n].labels.environment)
    ensures var w := s.workers[n]; var spec := SpecOf(s0, n);
            && io.fault.Done? && io.latest == h && s0.insts[n].git.pullRequestNumber.Some?
            && AtPc(w) && w.base == s.insts[n] && (Loaded(w.pc) ==> w.spec == spec)
            && Reached(ViewOf(s0, n), ViewOf(s, n), n, h, spec, w.pc, w.mem)
            && SameIdentity(s0.insts[n], s.insts[n])
  {
    hide Inv, Reached, AtPc;
    WorkerFacts(s, n);
  }

  /** One step puts a new version in place of the old one and leaves every other instance alone. */
  lemma Conclude(s0: State, s: State, n: string, h: string, io: Io, i: Instance)
    requires Here(s0, s, n) && n in s.workers
    requires var s' := Step(s, Work(n, io));
             && s'.insts == s.insts[n := i] && SameIdentity(s0.insts[n], i)
             && (n in s'.workers ==>
                  && s'.workers[n].base == i
                  && Reached(ViewOf(s0, n), ViewOf(s', n), n, h, SpecOf(s0, n), s'.workers[n].pc, s'.workers[n].mem))
             && (n !in s'.workers ==> Accomplished(ViewOf(s0, n), ViewOf(s', n), n, h, SpecOf(s0, n)))
    ensures QuietInv(s0, Step(s, Work(n, io)), n, h)
  {
    hide Step, Reached, Accomplished, SameIdentity, Written, ObjectsAfter, RecordedAfter, Do;
    WorkEffect(s, n, io);
  }

  /** What an accepted status write makes of the view. */
  lemma StatusReaches(v0: View, v: View, n: string, h: string, w: Worker, version: nat)
    requires AtPc(w) && w.base == v.i && WritesStatus(w.pc) && SameIdentity(v0.i, v.i)
    requires Reached(v0, v, n, h, w.spec, w.pc, w.mem)
    ensures var i := WithStatus(v.i, w.mem, version); var pc := AfterLanding(w.pc);
            && SameIdentity(v0.i, i)
            && (pc.Some? ==> Reached(v0, v.(i := i), n, h, w.spec, pc.value, i))
            && (pc.None? ==> Accomplished(v0, v.(i := i), n, h, w.spec))
  {
    StoredTagsSame(w.mem.built);
    hide StoredAll, Deployed, Tags, Unbuilt;
  }

  lemma StatusGoes(s0: State, s: State, n: string, h: string, io: Io)
    requires Going(s0, s, n, h, io) && n in s.workers && WritesStatus(s.workers[n].pc)
    ensures QuietInv(s0, Step(s, Work(n, io)), n, h)
  {
    hide Going, Step, Written, QuietInv, StatusUpdate, StoredAll, Do, Here, Reached, Accomplished, AtPc, WithStatus, SameIdentity;
    var w := s.workers[n];
    var i := WithStatus(w.base, w.mem, s.next);
    GoingFacts(s0, s, n, h, io);
    StatusLands(s, n, w, io);
    StatusMoves(s, n, w, io);
    WorkEffect(s, n, io);
    StatusReaches(ViewOf(s0, n), ViewOf(s, n), n, h, w, s.next);
    assert ViewOf(Step(s, Work(n, io)), n) == ViewOf(s, n).(i := i);
    Conclude(s0, s, n, h, io, i);
  }

  lemma SpecGoes(s0: State, s: State, n: string, h: string, io: Io)
    requires Going(s0, s, n, h, io) && n in s.workers && (s.workers[n].pc.AddFinalizer? || s.workers[n].pc.WriteHash?)
    ensures QuietInv(s0, Step(s, Work(n, io)), n, h)
  {
    hide Going, Step, Written, QuietInv, SpecUpdate, Do, Here, Reached, Accomplished, AtPc, WithSpec, SameIdentity;
    var w := s.workers[n];
    var i := WithSpec(w.base, w.mem, s.next);
    GoingFacts(s0, s, n, h, io);
    SpecLands(s, n, w, io);
    SpecMoves(s, n, w, io);
    WorkEffect(s, n, io);
    SpecReaches(ViewOf(s0, n), ViewOf(s, n), n, h, SpecOf(s0, n), w, s.next);
    assert ViewOf(Step(s, Work(n, io)), n) == ViewOf(s, n).(i := i);
    Conclude(s0, s, n, h, io, i);
  }

  /** What an accepted update of metadata and spec makes of the view. */
  lemma SpecReaches(v0: View, v: View, n: string, h: string, spec: Spec, w: Worker, version: nat)
    requires AtPc(w) && w.base == v.i && (w.pc.AddFinalizer? || w.pc.WriteHash?) && SameIdentity(v0.i, v.i)
    requires Reached(v0, v, n, h, spec, w.pc, w.mem)
    ensures var i := WithSpec(v.i, w.mem, version); var mem := if w.pc.WriteHash? then i.(phase := Pending) else i;
            SameIdentity(v0.i, i) && Reached(v0, v.(i := i), n, h, spec, AfterLanding(w.pc).value, mem)
  {
    hide Deployed, Tags, Unbuilt;
  }

  /** A step that writes nothing: what is left to show is where the worker stands. */
  lemma ReadGoes(s0: State, s: State, n: string, h: string, io: Io)
    requires Going(s0, s, n, h, io) && n in s.workers && Reads(s.workers[n].pc)
    requires var o := Do(s, n, s.workers[n], io).1;
             && (o.Some? ==>
                  && o.value.base == s.workers[n].base
                  && Reached(ViewOf(s0, n), ViewOf(s, n), n, h, SpecOf(s0, n), o.value.pc, o.value.mem))
             && (o.None? ==> Accomplished(ViewOf(s0, n), ViewOf(s, n), n, h, SpecOf(s0, n)))
    ensures QuietInv(s0, Step(s, Work(n, io)), n, h)
  {
    hide Going, Step, QuietInv, Do, Here, Reached, Accomplished, AtPc, Loaded;
    GoingFacts(s0, s, n, h, io);
    WorkEffect(s, n, io);
    assert s.insts[n := s.insts[n]] == s.insts;
    assert ViewOf(Step(s, Work(n, io)), n) == ViewOf(s, n);
    Conclude(s0, s, n, h, io, s.insts[n]);
  }

  predicate Reads(pc: Pc) { !WritesStatus(pc) && !WritesSpec(pc) && !pc.Put? && !pc.Del? && !pc.CreateJob? }

  lemma LoadGoes(s0: State, s: State, n: string, h: string, io: Io)
    requires Going(s0, s, n, h, io) && n in s.workers && s.workers[n].pc == LoadEnv
    ensures QuietInv(s0, Step(s, Work(n, io)), n, h)
  {
    hide Going, Step, QuietInv, Deployed, Tags, Accomplished, OwnObjects, BuildsOf;
    GoingFacts(s0, s, n, h, io);
    GoingEnvs(s0, s, n, h, io);
    ReadGoes(s0, s, n, h, io);
  }

  /** Every stored environment with the right id has the right settings. */
  lemma GoingEnvs(s0: State, s: State, n: string, h: string, io: Io)
    requires Going(s0, s, n, h, io) && n in s.workers
    ensures forall e | e in s.envs :: s.envs[e].uid in s.specs && s.envs[e].spec == s.specs[s.envs[e].uid]
  {
    hide QuietInv;
    forall e | e in s.envs ensures s.envs[e].uid in s.specs && s.envs[e].spec == s.specs[s.envs[e].uid] { EnvStoredOk(s, e); }
  }

  lemma BareJobMisses(s0: State, s: State, n: string, h: string, io: Io)
    requires Going(s0, s, n, h, io)
    ensures n !in s.jobs
  {
    hide Inv, Reached;
    StoredOk(s, n);
    BareLookupMisses(s, n);
  }

  lemma OldJobGoes(s0: State, s: State, n: string, h: string, io: Io)
    requires Going(s0, s, n, h, io) && n in s.workers
    requires var pc := s.workers[n].pc; pc == StartJob || pc == DeleteJob || pc == WaitGone
    ensures QuietInv(s0, Step(s, Work(n, io)), n, h)
  {
    hide Going, Step, QuietInv, Deployed, Tags, Unbuilt, Accomplished, OwnObjects, BuildsOf;
    GoingFacts(s0, s, n, h, io);
    ReadGoes(s0, s, n, h, io);
  }

  lemma JobGoes(s0: State, s: State, n: string, h: string, io: Io)
    requires Going(s0, s, n, h, io) && n in s.workers
    requires s.workers[n].pc == JobCheck
    ensures QuietInv(s0, Step(s, Work(n, io)), n, h)
  {
    hide Going, Step, QuietInv, Deployed, Tags, Unbuilt, Accomplished;
    BareJobMisses(s0, s, n, h, io);
    GoingFacts(s0, s, n, h, io);
    ReadGoes(s0, s, n, h, io);
  }

  lemma PollGoes(s0: State, s: State, n: string, h: string, io: Io)
    requires Going(s0, s, n, h, io) && n in s.workers && s.workers[n].pc.Poll?
    ensures QuietInv(s0, Step(s, Work(n, io)), n, h)
  {
    hide Going, Step, QuietInv, Deployed, Tags, Unbuilt, UpdateResult, OwnObjects, BuildsOf;
    GoingFacts(s0, s, n, h, io);
    ReadGoes(s0, s, n, h, io);
  }

  lemma AuthenticateGoes(s0: State, s: State, n: string, h: string, io: Io)
    requires Going(s0, s, n, h, io) && n in s.workers && s.workers[n].pc == Authenticate
    ensures QuietInv(s0, Step(s, Work(n, io)), n, h)
  {
    hide Going, Step, QuietInv, Tags, OwnObjects, BuildsOf;
    GoingFacts(s0, s, n, h, io);
    ReadGoes(s0, s, n, h, io);
  }

  lemma AnswerGoes(s0: State, s: State, n: string, h: string, io: Io)
    requires Going(s0, s, n, h, io) && n in s.workers && s.workers[n].pc == Answer
    ensures QuietInv(s0, Step(s, Work(n, io)), n, h)
  {
    hide Going, Step, QuietInv, Tags, OwnObjects, BuildsOf;
    GoingFacts(s0, s, n, h, io);
    ReadGoes(s0, s, n, h, io);
  }

  lemma LatestGoes(s0: State, s: State, n: string, h: string, io: Io)
    requires Going(s0, s, n, h, io) && n in s.workers && s.workers[n].pc == Latest
    ensures QuietInv(s0, Step(s, Work(n, io)), n, h)
  {
    hide Going, Step, QuietInv, Tags, OwnObjects, BuildsOf;
    GoingFacts(s0, s, n, h, io);
    ReadGoes(s0, s, n, h, io);
  }

  lemma CreateGoes(s0: State, s: State, n: string, h: string, io: Io)
    requires Going(s0, s, n, h, io) && n in s.workers && s.workers[n].pc == CreateJob
    ensures QuietInv(s0, Step(s, Work(n, io)), n, h)
  {
    hide Going, QuietInv, Here, OwnObjects;
    GoingFacts(s0, s, n, h, io);
    assert s.insts[n := s.insts[n]] == s.insts;
    Conclude(s0, s, n, h, io, s.insts[n]);
  }

  lemma PutMoves(s: State, n: string, w: Worker, k: Slot, io: Io)
    requires w.pc == Put(k) && io.fault.Done?
    ensures Do(s, n, w, io).1 ==
            if k < 5 then Some(w.(pc := Put(k + 1))) else Some(w.(pc := PublishUrl, mem := w.mem.(url := PublicUrl(w.spec, w.mem))))
  {
    hide Apply, SlotKey, SlotObject;
  }

  lemma PutDeploys(objects: map<ObjectKey, ClusterObject>, n: string, spec: Spec, i: Instance, k: Slot)
    requires Deployed(objects, n, spec, i, k) && !EndsWith(n, PROXY_SUFFIX)
    ensures Deployed(objects[SlotKey(k, n) := SlotObject(k, spec, i)], n, spec, i, k + 1)
  {
    forall j: Slot | j < k ensures SlotKey(j, n) != SlotKey(k, n) {
      if SlotKey(j, n) == SlotKey(k, n) { SlotsAreDisjoint(n, n, j, k); }
    }
    hide SlotKey, SlotObject;
  }

  lemma SameSlotObject(k: Slot, spec: Spec, a: Instance, b: Instance)
    requires a.git == b.git
    ensures SlotObject(k, spec, a) == SlotObject(k, spec, b) && PublicUrl(spec, a) == PublicUrl(spec, b)
  {
  }

  lemma PutReaches(v0: View, v: View, n: string, h: string, spec: Spec, k: Slot, mem: Instance)
    requires Reached(v0, v, n, h, spec, Put(k), mem) && !EndsWith(n, PROXY_SUFFIX)
    ensures var v' := v.(objects := v.objects[SlotKey(k, n) := SlotObject(k, spec, v0.i)]);
            && (k < 5 ==> Reached(v0, v', n, h, spec, Put(k + 1), mem))
            && (k == 5 ==> forall m :: Reached(v0, v', n, h, spec, PublishUrl, m))
  {
    hide Deployed, SlotKey, SlotObject, Tags;
    PutDeploys(v.objects, n, spec, v0.i, k);
  }

  lemma PutGoes(s0: State, s: State, n: string, h: string, io: Io)
    requires Going(s0, s, n, h, io) && n in s.workers && s.workers[n].pc.Put? && !EndsWith(n, PROXY_SUFFIX)
    ensures QuietInv(s0, Step(s, Work(n, io)), n, h)
  {
    hide Going, QuietInv, Here, Step, Do, SlotKey, SlotObject, Reached, Accomplished, AtPc, RecordedAfter;
    hide Cluster.StatusUpdate, SpecUpdate;
    var w := s.workers[n];
    var k := w.pc.k;
    GoingFacts(s0, s, n, h, io);
    WorkEffect(s, n, io);
    PutMoves(s, n, w, k, io);
    PutReaches(ViewOf(s0, n), ViewOf(s, n), n, h, SpecOf(s0, n), k, w.mem);
    PutGit(s0, s, n, h, io);
    SameSlotObject(k, w.spec, w.mem, s0.insts[n]);
    assert s.insts[n := s.insts[n]] == s.insts;
    OwnPut(s.objects, n, k, SlotObject(k, SpecOf(s0, n), s0.insts[n]));
    assert ViewOf(Step(s, Work(n, io)), n) ==
           ViewOf(s, n).(objects := ViewOf(s, n).objects[SlotKey(k, n) := SlotObject(k, SpecOf(s0, n), s0.insts[n])]);
    Conclude(s0, s, n, h, io, s.insts[n]);
  }

  lemma PutGit(s0: State, s: State, n: string, h: string, io: Io)
    requires Going(s0, s, n, h, io) && n in s.workers && s.workers[n].pc.Put?
    ensures n in s0.insts && s.workers[n].mem.git == s0.insts[n].git
  {
    hide Going, Deployed;
    GoingFacts(s0, s, n, h, io);
  }

  lemma WorkGoes(s0: State, s: State, n: string, h: string, io: Io)
    requires Going(s0, s, n, h, io) && !EndsWith(n, PROXY_SUFFIX)
    ensures QuietInv(s0, Step(s, Work(n, io)), n, h)
  {
    hide Inv;
    assert n in s.workers;
    hide Going, QuietInv, Step, Here, AtPc;
    GoingFacts(s0, s, n, h, io);
    var pc := s.workers[n].pc;
    if WritesStatus(pc) {
      StatusGoes(s0, s, n, h, io);
    } else if pc.AddFinalizer? || pc.WriteHash? {
      SpecGoes(s0, s, n, h, io);
    } else if pc.LoadEnv? {
      LoadGoes(s0, s, n, h, io);
    } else if pc.Authenticate? {
      AuthenticateGoes(s0, s, n, h, io);
    } else if pc.Answer? {
      AnswerGoes(s0, s, n, h, io);
    } else if pc.Latest? {
      LatestGoes(s0, s, n, h, io);
    } else if pc.CreateJob? {
      CreateGoes(s0, s, n, h, io);
    } else if pc.Poll? {
      PollGoes(s0, s, n, h, io);
    } else if pc.Put? {
      PutGoes(s0, s, n, h, io);
    } else if pc.JobCheck? {
      JobGoes(s0, s, n, h, io);
    } else if pc.StartJob? || pc.DeleteJob? || pc.WaitGone? {
      OldJobGoes(s0, s, n, h, io);
    }
  }

  lemma ReachedWithJob(v0: View, v: View, n: string, h: string, spec: Spec, pc: Pc, mem: Instance, job: Option<Job>)
    requires Reached(v0, v, n, h, spec, pc, mem)
    requires pc == WaitGone || (job.Some? <==> v.job.Some?)
    requires job.Some? ==> job.value.failed ==> job.value.succeeded
    ensures Reached(v0, v.(job := job), n, h, spec, pc, mem)
  {
    hide Deployed, Unbuilt;
  }

  /** What time and the build job can change. */
  lemma JobEvent(s: State, n: string, h: string, ev: Event)
    requires n in s.workers && n in s.insts && Quiet(s, n, h, ev) && !ev.Work?
    ensures var t := Step(s, ev);
            && t.insts == s.insts && t.specs == s.specs && t.workers == s.workers
            && ViewOf(t, n) == ViewOf(s, n).(job := ViewOf(t, n).job)
            && (ViewOf(t, n).job == ViewOf(s, n).job
                || (s.workers[n].pc == WaitGone && ViewOf(t, n).job.None?)
                || (ViewOf(s, n).job.Some? && ViewOf(t, n).job.Some? && (ViewOf(t, n).job.value.failed ==> ViewOf(t, n).job.value.succeeded)))
  {
    hide Do, EnvDo, OwnObjects;
    if ev.JobReport? && ev.j !in s.jobs { assert Step(s, ev) == s; }
  }

  lemma JobsGo(s0: State, s: State, n: string, h: string, ev: Event)
    requires QuietInv(s0, s, n, h) && n in s.workers && Quiet(s, n, h, ev) && !ev.Work?
    ensures QuietInv(s0, Step(s, ev), n, h)
  {
    hide Step, Reached, Accomplished, SameIdentity, ViewOf, Quiet;
    JobEvent(s, n, h, ev);
    var v, job := ViewOf(s, n), ViewOf(Step(s, ev), n).job;
    if job == v.job {
      assert v.(job := job) == v;
    } else {
      ReachedWithJob(ViewOf(s0, n), v, n, h, SpecOf(s0, n), s.workers[n].pc, s.workers[n].mem, job);
    }
  }

  // ---------------------------------------------------------------- where it begins

  /** An instance of a pull request that nobody is deleting or reconciling, with its environment in place. */
  predicate Idle(s: State, n: string) {
    && n in s.insts && n !in s.workers && !s.insts[n].deleting && s.insts[n].git.pullRequestNumber.Some?
    && HasEnv(s, s.insts[n].labels.environment)
  }

  lemma BeginSpec(s: State, n: string)
    requires Inv(s) && n in s.insts
    ensures s.insts[n].labels.environment in s.specs
  {
    StoredOk(s, n);
    hide Inv;
  }

  lemma BeginGoes(s: State, n: string, h: string)
    requires Inv(s) && Idle(s, n)
    ensures QuietInv(s, Step(s, Begin(n)), n, h) && n in Step(s, Begin(n)).workers
  {
    hide Inv, Step, Reached, Accomplished, Begun, InstanceOk, OwnObjects;
    StoredOk(s, n);
    BeginIs(s, n);
    var w := Begun(s.insts[n]);
    BeginSpec(s, n);
    BeginReaches(ViewOf(s, n), n, h, SpecOf(s, n), w);
    assert ViewOf(Step(s, Begin(n)), n) == ViewOf(s, n);
  }

  function Begun(i: Instance): Worker {
    Worker(if i.finalizer then LoadEnv else AddFinalizer, i, i.(finalizer := true), NO_SPEC)
  }

  lemma BeginIs(s: State, n: string)
    requires Idle(s, n)
    ensures Step(s, Begin(n)) == s.(workers := s.workers[n := Begun(s.insts[n])]) && Begun(s.insts[n]).base == s.insts[n]
  {
    hide Do, EnvDo;
  }

  lemma BeginReaches(v: View, n: string, h: string, spec: Spec, w: Worker)
    requires w == Begun(v.i)
    ensures Reached(v, v, n, h, spec, w.pc, w.mem)
  {
    hide Deployed, Tags, Unbuilt;
  }

  /** One quiet step, whoever makes it. */
  lemma QuietStepGoes(s0: State, s: State, n: string, h: string, ev: Event)
    requires Inv(s) && Idle(s0, n) && QuietInv(s0, s, n, h) && !EndsWith(n, PROXY_SUFFIX)
    requires n in s.workers && HasEnv(s, s.insts[n].labels.environment) && Quiet(s, n, h, ev)
    ensures QuietInv(s0, Step(s, ev), n, h)
  {
    hide Inv, Step, EndsWith;
    if ev.Work? {
      assert Going(s0, s, n, h, ev.io);
      WorkGoes(s0, s, n, h, ev.io);
    } else {
      JobsGo(s0, s, n, h, ev);
    }
  }

  /** A number in the name ends it with a digit. */
  lemma NumberedIsNoProxy(s: State, n: string)
    requires Inv(s) && Idle(s, n)
    ensures !EndsWith(n, PROXY_SUFFIX)
  {
    StoredOk(s, n);
    hide Inv;
    var digits := Itoa(s.insts[n].git.pullRequestNumber.value);
    assert NameSuffix(n) == digits;
    AfterLastParts(n, '-');
    assert n[|n| - 1] == digits[|digits| - 1];
    assert PROXY_SUFFIX[|PROXY_SUFFIX| - 1] == 'y';
  }

  // ---------------------------------------------------------------- what is on show

  /** The objects named `n` and `n`-auth-proxy serve one commit of one pull request or branch, and the URL leads there. */
  predicate Serving(objects: map<ObjectKey, ClusterObject>, n: string, url: string, spec: Spec, identifier: string, hash: string) {
    var proxy := n + "-auth-proxy";
    && ObjectKey(Deployment, n) in objects && ObjectKey(Service, n) in objects && ObjectKey(Ingress, n) in objects
    && ObjectKey(Deployment, proxy) in objects && ObjectKey(Service, proxy) in objects && ObjectKey(Ingress, proxy) in objects
    && var app, rule, proxyRule := objects[ObjectKey(Deployment, n)], objects[ObjectKey(Ingress, n)], objects[ObjectKey(Ingress, proxy)];
       && app.Workload? && ShowsBuild(app.image, spec, identifier, hash)
       && objects[ObjectKey(Service, n)] == Endpoint && objects[ObjectKey(Service, proxy)] == Endpoint
       && objects[ObjectKey(Deployment, proxy)] == Workload("quay.io/oauth2-proxy/oauth2-proxy:latest")
       && rule.Route? && rule.host == spec.hostname && ShowsPath(rule.path, spec, identifier, hash)
       && proxyRule == Route(rule.host, rule.path + "/oauth2")
       && url == "https://" + rule.host + rule.path
  }

  lemma DeployedServes(objects: map<ObjectKey, ClusterObject>, n: string, spec: Spec, i: Instance, number: PrNumber)
    requires Deployed(objects, n, spec, i, 6) && i.git.pullRequestNumber == Some(number)
    ensures Serving(objects, n, PublicUrl(spec, i), spec, Itoa(number), i.git.commitHash)
  {
    assert forall k: Slot :: SlotKey(k, n) in objects && objects[SlotKey(k, n)] == SlotObject(k, spec, i);
    hide Deployed;
    var identifier, hash := Itoa(number), i.git.commitHash;
    assert SlotKey(0, n) == ObjectKey(Deployment, n) && SlotKey(1, n) == ObjectKey(Service, n) && SlotKey(5, n) == ObjectKey(Ingress, n);
    assert SlotKey(2, n) == ObjectKey(Deployment, n + "-auth-proxy") && SlotKey(3, n) == ObjectKey(Service, n + "-auth-proxy");
    assert SlotKey(4, n) == ObjectKey(Ingress, n + "-auth-proxy");
    hide SlotKey;
    ImageShowsBuild(spec, identifier, hash);
    PathShows(spec, identifier, hash);
    hide ShowsBuild, ShowsPath, ContainerName, HttpPath;
  }

  lemma PathShows(spec: Spec, identifier: string, hash: string)
    ensures ShowsPath(HttpPath(spec.organization, spec.repository, identifier, hash), spec, identifier, hash)
  {
    if '/' !in spec.organization && '/' !in spec.repository && '/' !in hash {
      PathsParseBack(spec.organization, spec.repository, identifier, hash);
    }
    hide ParsePath, HttpPath;
  }

  lemma UrlShows(spec: Spec, i: Instance, number: PrNumber)
    requires i.git.pullRequestNumber == Some(number)
    ensures ShowsUrl(PublicUrl(spec, i), spec, Itoa(number), i.git.commitHash)
  {
    PathShows(spec, Itoa(number), i.git.commitHash);
    var front := "https://" + spec.hostname;
    assert PublicUrl(spec, i) == front + HttpPath(spec.organization, spec.repository, Itoa(number), i.git.commitHash);
    assert PublicUrl(spec, i)[|front|..] == HttpPath(spec.organization, spec.repository, Itoa(number), i.git.commitHash);
    hide ShowsPath, HttpPath, PublicUrl;
  }

  // ---------------------------------------------------------------- what everyone else may do meanwhile

  function OwnOf(s: State, n: string): Option<Worker> { if n in s.workers then Some(s.workers[n]) else None }

  /** An event that leaves an instance, its reconcile and its six objects alone, and the build job of that reconcile. */
  predicate Spares(s: State, ev: Event, n: string) {
    var t := Step(s, ev);
    && n in s.insts && n in t.insts && OwnOf(t, n) == OwnOf(s, n)
    && var v, v' := ViewOf(s, n), ViewOf(t, n);
       v'.(job := v.job) == v && (n in s.workers ==> v'.job == v.job)
  }

  lemma HereStays(s0: State, s: State, n: string, ev: Event)
    requires Inv(s) && Here(s0, s, n) && n in Step(s, ev).insts
    ensures Here(s0, Step(s, ev), n)
  {
    hide Step, Inv;
    SpecsGrow(s, ev, s0.insts[n].labels.environment);
  }

  /** What everyone else does in the meantime does not matter as long as it spares the instance. */
  lemma SparedStepGoes(s0: State, s: State, n: string, h: string, ev: Event)
    requires Inv(s) && QuietInv(s0, s, n, h) && n in s.workers && Spares(s, ev, n)
    ensures QuietInv(s0, Step(s, ev), n, h)
  {
    hide Step, Inv, Reached, Accomplished, SameIdentity, ViewOf, Here;
    SparedView(s, n, ev);
    HereStays(s0, s, n, ev);
    HereSpec(s0, s, Step(s, ev), n);
  }

  lemma SparedView(s: State, n: string, ev: Event)
    requires Spares(s, ev, n) && n in s.workers
    ensures var t := Step(s, ev);
            n in t.insts && t.insts[n] == s.insts[n] && n in t.workers && t.workers[n] == s.workers[n] && ViewOf(t, n) == ViewOf(s, n)
  {
    hide Step, OwnObjects, BuildsOf;
  }

  lemma HereSpec(s0: State, s: State, t: State, n: string)
    requires Here(s0, s, n) && Here(s0, t, n)
    ensures var uid := s0.insts[n].labels.environment;
            && n in s0.insts && n in s.insts && n in t.insts && uid in s0.specs && uid in s.specs && uid in t.specs
            && s.specs[uid] == s0.specs[uid] && t.specs[uid] == s.specs[uid]
  {
  }

  // ---------------------------------------------------------------- one reconcile

  /** A reconcile that began in `s0` and has just come to its end has done all it should. */
  lemma ReconcileDoes(s0: State, s: State, n: string, h: string)
    requires QuietInv(s0, s, n, h) && n !in s.workers
    ensures Here(s0, s, n) && Accomplished(ViewOf(s0, n), ViewOf(s, n), n, h, SpecOf(s0, n))
  {
    hide Accomplished;
  }
}
