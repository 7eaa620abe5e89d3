/** Nothing unbuilt is ever deployed, whatever interleaves. */
module Safety {
  import opened Text
  import opened Naming
  import opened Versions
  import opened Cluster

  // ---------------------------------------------------------------- the inductive invariant

  /** The image of `tag` for the environment an instance is labelled with and the number in its name. */
  function Family(specs: map<nat, Spec>, n: string, i: Instance, tag: string): string
    requires i.labels.environment in specs
  {
    ContainerName(specs[i.labels.environment], NameSuffix(n), tag)
  }

  predicate GitOk(n: string, git: GitSettings) {
    match git.pullRequestNumber
    case None => git.commitHash == ""
    case Some(number) => NameSuffix(n) == Itoa(number)
  }

  /** The labels show the environment's owner and repository, and the identifier that the name was made from. */
  predicate LabelsTell(spec: Spec, n: string, l: Labels) {
    && l.owner == spec.owner && l.organization == spec.organization && l.repository == spec.repository
    && (n == BranchName(spec, l.identifier) || (AllDigits(l.identifier) && n == BranchName(spec, "pr-" + l.identifier)))
  }

  predicate InstanceOk(specs: map<nat, Spec>, pushed: set<string>, n: string, i: Instance) {
    && INSTANCE_PREFIX <= n
    && i.labels.environment in specs
    && LabelsTell(specs[i.labels.environment], n, i.labels)
    && GitOk(n, i.git)
    && (forall v | v in i.built :: Family(specs, n, i, v.tag) in pushed)
    && (i.phase.Deploying? && i.git.commitHash != "" ==> Family(specs, n, i, i.git.commitHash) in pushed)
  }

  predicate Unbuilt(i: Instance) { i.git.commitHash != "" && !HasTag(i.built, i.git.commitHash) }

  /** What the position of a reconcile says about the version it started its last write from. */
  predicate AtPc(w: Worker) {
    var b, m := w.base, w.mem;
    match w.pc
    case AddFinalizer => m == b.(finalizer := true) && !b.finalizer && !b.deleting
    case LoadEnv => m == b && b.finalizer && !b.deleting
    case JobCheck => m == b && b.finalizer && !b.deleting && b.phase == Pending && Unbuilt(b)
    case DeleteBare => m == b && b.finalizer && !b.deleting && b.phase == Pending && Unbuilt(b)
    case MarkBuilding => m == b.(phase := Building) && b.finalizer && !b.deleting && b.phase == Pending && Unbuilt(b)
    case StartJob => m == b && b.finalizer && !b.deleting && b.phase == Building && Unbuilt(b)
    case DeleteJob => m == b && b.finalizer && !b.deleting && b.phase == Building && Unbuilt(b)
    case WaitGone => m == b && b.finalizer && !b.deleting && b.phase == Building && Unbuilt(b)
    case CreateJob => m == b && b.finalizer && !b.deleting && b.phase == Building && Unbuilt(b)
    case Poll(_) => m == b && b.finalizer && !b.deleting && b.phase == Building && Unbuilt(b)
    case MarkDeploying(added) =>
      && m == b.(phase := Deploying, built := m.built) && b.finalizer && !b.deleting
      && match added {
        case None => m.built == b.built && b.phase == Pending
        case Some(v) => UpdateResult(b.built, v, KEEP, m.built) && b.phase == Building && Unbuilt(b) && v.tag == b.git.commitHash
      }
    case MarkFailed =>
      && m == b.(phase := Failed, url := m.url) && b.finalizer && !b.deleting
      && (b.phase == Pending || b.phase == Building || b.phase == Deploying)
    case BeginDeploy => m == b && b.finalizer && !b.deleting && b.phase == Deploying && b.git.commitHash != ""
    case Authenticate => m == b && b.finalizer && !b.deleting && b.phase == Deploying && b.git.commitHash != ""
    case Put(_) => m == b && b.finalizer && !b.deleting && b.phase == Deploying && b.git.commitHash != ""
    case PublishUrl =>
      && m == b.(url := PublicUrl(w.spec, b)) && b.finalizer && !b.deleting
      && b.phase == Deploying && b.git.commitHash != ""
    case Answer => m == b && b.finalizer && !b.deleting && b.phase == Deploying
    case MarkRunning =>
      && m == b.(phase := Running) && b.finalizer && !b.deleting && b.phase == Deploying
      && b.git.pullRequestNumber.Some?
    case Latest => m == b && b.finalizer && !b.deleting && b.phase != Pending && b.phase != Deploying
    case WriteHash =>
      && m == b.(git := b.git.(commitHash := m.git.commitHash)) && b.finalizer && !b.deleting
      && b.phase != Pending && b.phase != Deploying && b.git.pullRequestNumber.Some?
    case MarkPending =>
      && m == b.(phase := Pending) && b.finalizer && !b.deleting
      && b.phase != Pending && b.phase != Deploying
    case Del(_) => m == b && b.finalizer && b.deleting
    case RemoveFinalizer => m == b.(finalizer := false) && b.finalizer && b.deleting
  }

  predicate Loaded(pc: Pc) { !pc.AddFinalizer? && !pc.LoadEnv? && !pc.Del? && !pc.RemoveFinalizer? }

  predicate WorkerOk(specs: map<nat, Spec>, pushed: set<string>, n: string, w: Worker) {
    && InstanceOk(specs, pushed, n, w.base)
    && AtPc(w)
    && (Loaded(w.pc) ==> w.spec == specs[w.base.labels.environment])
    && match w.pc {
      case MarkDeploying(added) =>
        && (forall v | v in w.mem.built :: Family(specs, n, w.base, v.tag) in pushed)
        && (w.base.git.commitHash != "" ==> Family(specs, n, w.base, w.base.git.commitHash) in pushed)
      case _ => true
    }
  }

  /** A copy is exactly what the server returned for its version. */
  predicate Linked(s: State, n: string, copy: Instance) {
    copy.version < s.next && (n in s.insts && s.insts[n].version == copy.version ==> s.insts[n] == copy)
  }

  predicate JobLinked(s: State, n: string, w: Worker) {
    w.pc.Poll? && JobName(n) in s.jobs ==> s.jobs[JobName(n)].destination == Image(w.spec, w.mem)
  }

  predicate DraftOk(env: Environment, d: Draft) {
    && INSTANCE_PREFIX <= d.name && d.labels.environment == env.uid && LabelsTell(env.spec, d.name, d.labels)
    && GitOk(d.name, d.git) && d.git.commitHash == ""
  }

  function Drafts(pc: EnvPc): seq<Draft> {
    match pc
    case ListBranches(found) => found
    case SaveRead(todo) => todo
    case SaveWrite(todo, _) => todo
    case _ => []
  }

  predicate EnvKnown(specs: map<nat, Spec>, env: Environment) { env.uid in specs && specs[env.uid] == env.spec }

  predicate EnvWorkerOk(s: State, w: EnvWorker) {
    && EnvKnown(s.specs, w.copy)
    && (forall d | d in Drafts(w.pc) :: DraftOk(w.copy, d))
    && (w.pc.SaveWrite? && w.pc.existing.Some? ==>
      && w.pc.todo != []
      && InstanceOk(s.specs, s.pushed, w.pc.todo[0].name, w.pc.existing.value)
      && Linked(s, w.pc.todo[0].name, w.pc.existing.value))
  }

  predicate JobOk(pushed: set<string>, j: string, job: Job) {
    BUILD_PREFIX <= j && (job.succeeded ==> job.destination in pushed)
  }

  /** The image was made for some environment and for the number in the name. */
  ghost predicate MadeFor(specs: map<nat, Spec>, name: string, image: string) {
    exists uid, tag :: uid in specs && image == ContainerName(specs[uid], NameSuffix(name), tag)
  }

  /** An app Deployment is one that is not an authentication proxy. */
  ghost predicate ObjectOk(specs: map<nat, Spec>, pushed: set<string>, key: ObjectKey, o: ClusterObject) {
    key.kind.Deployment? && !EndsWith(key.name, PROXY_SUFFIX)
    ==> o.Workload? && o.image in pushed && MadeFor(specs, key.name, o.image)
  }

  predicate InstancesOk(s: State) {
    forall n | n in s.insts :: InstanceOk(s.specs, s.pushed, n, s.insts[n]) && s.insts[n].version < s.next
  }

  predicate WorkersOk(s: State) {
    forall n | n in s.workers ::
      WorkerOk(s.specs, s.pushed, n, s.workers[n]) && Linked(s, n, s.workers[n].base) && JobLinked(s, n, s.workers[n])
  }

  predicate HandlersOk(s: State) {
    forall id | id in s.handlers ::
      && InstanceOk(s.specs, s.pushed, s.handlers[id].name, s.handlers[id].copy)
      && Linked(s, s.handlers[id].name, s.handlers[id].copy)
  }

  predicate EnvsOk(s: State) {
    && (forall e | e in s.envs :: EnvKnown(s.specs, s.envs[e]))
    && (forall e | e in s.envWorkers :: EnvWorkerOk(s, s.envWorkers[e]))
    && (forall uid | uid in s.specs :: uid < s.nextUid)
  }

  predicate JobsOk(s: State) { forall j | j in s.jobs :: JobOk(s.pushed, j, s.jobs[j]) }

  ghost predicate ObjectsOk(s: State) { forall key | key in s.objects :: ObjectOk(s.specs, s.pushed, key, s.objects[key]) }

  ghost predicate Inv(s: State) {
    InstancesOk(s) && WorkersOk(s) && HandlersOk(s) && EnvsOk(s) && JobsOk(s) && ObjectsOk(s)
  }

  // ---------------------------------------------------------------- building blocks

  /** Each part of the invariant depends on a few components of the state alone. */
  lemma SameInstances(s: State, t: State)
    requires InstancesOk(s) && t.insts == s.insts && t.specs == s.specs && t.pushed == s.pushed && t.next == s.next
    ensures InstancesOk(t)
  {
    hide InstanceOk;
  }

  lemma SameWorkers(s: State, t: State)
    requires WorkersOk(s) && t.workers == s.workers && t.jobs == s.jobs
    requires t.insts == s.insts && t.specs == s.specs && t.pushed == s.pushed && t.next == s.next
    ensures WorkersOk(t)
  {
    hide WorkerOk;
  }

  lemma SameHandlers(s: State, t: State)
    requires HandlersOk(s) && t.handlers == s.handlers
    requires t.insts == s.insts && t.specs == s.specs && t.pushed == s.pushed && t.next == s.next
    ensures HandlersOk(t)
  {
    hide InstanceOk;
  }

  lemma SameEnvs(s: State, t: State)
    requires EnvsOk(s) && t.envs == s.envs && t.envWorkers == s.envWorkers && t.nextUid == s.nextUid
    requires t.insts == s.insts && t.specs == s.specs && t.pushed == s.pushed && t.next == s.next
    ensures EnvsOk(t)
  {
    hide InstanceOk;
  }

  lemma SameJobs(s: State, t: State)
    requires JobsOk(s) && t.jobs == s.jobs && t.pushed == s.pushed
    ensures JobsOk(t)
  {
  }

  lemma SameObjects(s: State, t: State)
    requires ObjectsOk(s) && t.objects == s.objects && t.specs == s.specs && t.pushed == s.pushed
    ensures ObjectsOk(t)
  {
    hide ObjectOk;
  }

  /** A new version is linked to no copy. */
  lemma LinkedStays(s: State, n: string, i: Instance, m: string, copy: Instance)
    requires Linked(s, m, copy) && i.version == s.next
    ensures Linked(PutInstance(s, n, i), m, copy)
  {
  }

  lemma PutStoredOk(s: State, n: string, i: Instance)
    requires InstancesOk(s) && HandlersOk(s) && InstanceOk(s.specs, s.pushed, n, i) && i.version == s.next
    ensures InstancesOk(PutInstance(s, n, i)) && HandlersOk(PutInstance(s, n, i))
  {
    hide InstanceOk;
  }

  lemma PutWorkersOk(s: State, n: string, i: Instance)
    requires WorkersOk(s) && i.version == s.next
    ensures WorkersOk(PutInstance(s, n, i))
  {
    hide WorkerOk, Linked, JobName, Image;
    forall m | m in s.workers ensures Linked(PutInstance(s, n, i), m, s.workers[m].base) {
      LinkedStays(s, n, i, m, s.workers[m].base);
    }
  }

  lemma PutEnvsOk(s: State, n: string, i: Instance)
    requires EnvsOk(s) && i.version == s.next
    ensures EnvsOk(PutInstance(s, n, i))
  {
    hide InstanceOk, Linked;
    var t := PutInstance(s, n, i);
    forall e | e in s.envWorkers ensures EnvWorkerOk(t, s.envWorkers[e]) {
      var w := s.envWorkers[e];
      assert EnvWorkerOk(s, w);
      if w.pc.SaveWrite? && w.pc.existing.Some? { LinkedStays(s, n, i, w.pc.todo[0].name, w.pc.existing.value); }
    }
  }

  lemma PutInstanceOk(s: State, n: string, i: Instance)
    requires Inv(s) && InstanceOk(s.specs, s.pushed, n, i) && i.version == s.next
    ensures Inv(PutInstance(s, n, i))
  {
    hide InstancesOk, HandlersOk, WorkersOk, EnvsOk, JobsOk, ObjectsOk, InstanceOk;
    var t := PutInstance(s, n, i);
    PutStoredOk(s, n, i);
    PutWorkersOk(s, n, i);
    PutEnvsOk(s, n, i);
    SameJobs(s, t);
    SameObjects(s, t);
  }

  lemma DropInstanceOk(s: State, n: string)
    requires Inv(s)
    ensures Inv(DropInstance(s, n))
  {
  }

  lemma SetWorkerOk(s: State, n: string, o: Option<Worker>)
    requires Inv(s)
    requires o.Some? ==> WorkerOk(s.specs, s.pushed, n, o.value) && Linked(s, n, o.value.base) && JobLinked(s, n, o.value)
    ensures Inv(SetWorker(s, n, o))
  {
    var t := SetWorker(s, n, o);
    hide InstancesOk, HandlersOk, EnvsOk, JobsOk, ObjectsOk, WorkerOk;
    SameInstances(s, t);
    SameHandlers(s, t);
    SameEnvs(s, t);
    SameJobs(s, t);
    SameObjects(s, t);
  }

  lemma SetEnvWorkerOk(s: State, e: string, o: Option<EnvWorker>)
    requires Inv(s) && (o.Some? ==> EnvWorkerOk(s, o.value))
    ensures Inv(SetEnvWorker(s, e, o))
  {
    var t := SetEnvWorker(s, e, o);
    hide InstancesOk, HandlersOk, WorkersOk, JobsOk, ObjectsOk, InstanceOk;
    SameInstances(s, t);
    SameHandlers(s, t);
    SameWorkers(s, t);
    SameJobs(s, t);
    SameObjects(s, t);
  }

  lemma StatusUpdateOk(s: State, n: string, base: Instance, mem: Instance, fault: Fault)
    requires Inv(s) && Linked(s, n, base) && mem.version == base.version
    requires InstanceOk(s.specs, s.pushed, n, WithStatus(base, mem, s.next))
    ensures Inv(StatusUpdate(s, n, mem, fault))
  {
    hide Inv;
    if Accepts(s, n, mem, fault) {
      PutInstanceOk(s, n, WithStatus(base, mem, s.next));
    }
  }

  lemma SpecUpdateOk(s: State, n: string, base: Instance, mem: Instance, fault: Fault)
    requires Inv(s) && Linked(s, n, base) && mem.version == base.version
    requires InstanceOk(s.specs, s.pushed, n, WithSpec(base, mem, s.next))
    ensures Inv(SpecUpdate(s, n, mem, fault))
  {
    hide Inv;
    if Accepts(s, n, mem, fault) {
      if WithSpec(base, mem, s.next).deleting && !mem.finalizer {
        DropInstanceOk(s, n);
      } else {
        PutInstanceOk(s, n, WithSpec(base, mem, s.next));
      }
    }
  }

  lemma StoredOk(s: State, n: string)
    requires Inv(s) && n in s.insts
    ensures InstanceOk(s.specs, s.pushed, n, s.insts[n]) && s.insts[n].version < s.next
  {
  }

  lemma WorkerFacts(s: State, n: string)
    requires Inv(s) && n in s.workers
    ensures WorkerOk(s.specs, s.pushed, n, s.workers[n]) && Linked(s, n, s.workers[n].base) && JobLinked(s, n, s.workers[n])
  {
  }

  lemma EnvWorkerFacts(s: State, e: string)
    requires Inv(s) && e in s.envWorkers
    ensures EnvWorkerOk(s, s.envWorkers[e])
  {
  }

  lemma HandlerFacts(s: State, id: nat)
    requires Inv(s) && id in s.handlers
    ensures InstanceOk(s.specs, s.pushed, s.handlers[id].name, s.handlers[id].copy)
    ensures Linked(s, s.handlers[id].name, s.handlers[id].copy)
  {
  }

  lemma RequestDeleteOk(s: State, n: string)
    requires Inv(s) && n in s.insts
    ensures Inv(RequestDelete(s, n)) && RequestDelete(s, n).specs == s.specs
  {
    hide Inv;
    StoredOk(s, n);
    DropInstanceOk(s, n);
    PutInstanceOk(s, n, s.insts[n].(deleting := true, version := s.next));
  }

  /** Knowledge only grows. */
  lemma InstanceOkGrows(specs: map<nat, Spec>, specs': map<nat, Spec>, pushed: set<string>, pushed': set<string>, n: string, i: Instance)
    requires InstanceOk(specs, pushed, n, i) && pushed <= pushed'
    requires forall uid | uid in specs :: uid in specs' && specs'[uid] == specs[uid]
    ensures InstanceOk(specs', pushed', n, i)
  {
    assert forall tag :: Family(specs, n, i, tag) == Family(specs', n, i, tag);
  }

  // ---------------------------------------------------------------- the instance reconciler keeps it

  lemma StoredTags(built: seq<BuiltVersion>, v: BuiltVersion)
    requires v in StoredAll(built)
    ensures exists u :: u in built && u.tag == v.tag
  {
    var i :| 0 <= i < |built| && StoredAll(built)[i] == v;
    assert built[i] in built;
  }

  /** A status write keeps an instance sound when every tag and the phase in it are covered. */
  lemma WithStatusOk(s: State, n: string, base: Instance, mem: Instance, version: nat)
    requires InstanceOk(s.specs, s.pushed, n, base)
    requires forall v | v in mem.built :: Family(s.specs, n, base, v.tag) in s.pushed
    requires mem.phase.Deploying? && base.git.commitHash != "" ==> Family(s.specs, n, base, base.git.commitHash) in s.pushed
    ensures InstanceOk(s.specs, s.pushed, n, WithStatus(base, mem, version))
  {
    hide Inv;
    forall v | v in StoredAll(mem.built) ensures Family(s.specs, n, base, v.tag) in s.pushed {
      StoredTags(mem.built, v);
    }
  }

  /** For an instance with a commit hash the image the code names is the one its name stands for. */
  lemma ImageIsFamily(specs: map<nat, Spec>, pushed: set<string>, n: string, i: Instance)
    requires InstanceOk(specs, pushed, n, i) && i.git.commitHash != ""
    ensures Image(specs[i.labels.environment], i) == Family(specs, n, i, i.git.commitHash)
  {
  }

  lemma MarkOk(s: State, n: string, w: Worker, pc: Pc, phase: Phase)
    requires Inv(s) && WorkerOk(s.specs, s.pushed, n, w.(pc := pc, mem := w.mem.(phase := phase)))
    requires Linked(s, n, w.base) && !pc.Poll?
    ensures var (s1, o) := Mark(s, w, pc, phase); Inv(SetWorker(s1, n, o))
  {
    hide Inv;
    var (s1, o) := Mark(s, w, pc, phase);
    SetWorkerOk(s1, n, o);
  }

  lemma GotoOk(s: State, n: string, w: Worker, pc: Pc)
    requires Inv(s) && WorkerOk(s.specs, s.pushed, n, w.(pc := pc))
    requires Linked(s, n, w.base) && JobLinked(s, n, w.(pc := pc))
    ensures var (s1, o) := Goto(s, w, pc); Inv(SetWorker(s1, n, o))
  {
    hide Inv;
    SetWorkerOk(s, n, Some(w.(pc := pc)));
  }

  ghost predicate Working(s: State, n: string, w: Worker) {
    Inv(s) && WorkerOk(s.specs, s.pushed, n, w) && Linked(s, n, w.base) && JobLinked(s, n, w)
  }

  ghost predicate Kept(s: State, n: string, o: Outcome) { Inv(SetWorker(o.0, n, o.1)) }

  lemma FailOk(s: State, n: string, w: Worker)
    requires Working(s, n, w) && Loaded(w.pc)
    requires w.mem == w.base.(phase := w.mem.phase, url := w.mem.url)
    requires w.base.phase == Pending || w.base.phase == Building || w.base.phase == Deploying
    ensures Kept(s, n, Fail(s, w))
  {
    hide Inv;
    MarkOk(s, n, w, MarkFailed, Failed);
  }

  lemma DispatchOk(s: State, n: string, w: Worker)
    requires Working(s, n, w) && w.pc == LoadEnv && w.spec == s.specs[w.base.labels.environment]
    ensures Kept(s, n, Dispatch(s, w))
  {
    hide LabelsTell;
    hide Inv;
    match w.mem.phase
    case Pending =>
      if Unbuilt(w.mem) { GotoOk(s, n, w, JobCheck); } else { MarkOk(s, n, w, MarkDeploying(None), Deploying); }
    case Deploying =>
      if w.mem.git.commitHash == "" { GotoOk(s, n, w, Answer); } else { GotoOk(s, n, w, BeginDeploy); }
    case _ => GotoOk(s, n, w, Latest);
  }

  lemma EnvStoredOk(s: State, e: string)
    requires Inv(s) && e in s.envs
    ensures EnvKnown(s.specs, s.envs[e]) && s.envs[e].uid < s.nextUid
  {
  }

  lemma LoadOk(s: State, n: string, w: Worker, io: Io)
    requires Working(s, n, w) && w.pc == LoadEnv
    ensures Kept(s, n, Load(s, w, io))
  {
    hide Inv;
    SetWorkerOk(s, n, None);
    SetWorkerOk(s, n, Some(w));
    if io.env in s.envs && s.envs[io.env].uid == w.mem.labels.environment {
      EnvStoredOk(s, io.env);
      DispatchOk(s, n, w.(spec := s.envs[io.env].spec));
    }
  }

  /** Build jobs carry another prefix, so the lookup by the bare instance name always misses. */
  lemma BareLookupMisses(s: State, n: string)
    requires Inv(s) && INSTANCE_PREFIX <= n
    ensures n !in s.jobs
  {
    if n in s.jobs {
      assert JobOk(s.pushed, n, s.jobs[n]);
      JobNameIsNoInstanceName(n, n);
    }
  }

  lemma CheckJobOk(s: State, n: string, w: Worker, io: Io)
    requires Working(s, n, w) && w.pc == JobCheck
    ensures Kept(s, n, CheckJob(s, n, w, io))
  {
    hide Inv;
    BareLookupMisses(s, n);
    if io.fault.Done? { MarkOk(s, n, w, MarkBuilding, Building); } else { FailOk(s, n, w); }
  }

  lemma NewJobOk(s: State, n: string, image: string)
    requires Inv(s) && JobName(n) !in s.jobs
    requires n in s.workers ==> !s.workers[n].pc.Poll?
    ensures Inv(NewJob(s, JobName(n), image))
  {
    var t := NewJob(s, JobName(n), image);
    hide InstancesOk, HandlersOk, EnvsOk, ObjectsOk, WorkerOk;
    SameInstances(s, t);
    SameHandlers(s, t);
    SameEnvs(s, t);
    SameObjects(s, t);
    assert BUILD_PREFIX <= JobName(n);
    assert forall m | JobName(m) == JobName(n) :: m == JobName(m)[6..] == n;
  }

  lemma JobCreatedOk(s1: State, n: string, w: Worker, readyAt: nat)
    requires Inv(s1) && WorkerOk(s1.specs, s1.pushed, n, w) && Linked(s1, n, w.base) && w.pc == CreateJob
    requires JobName(n) in s1.jobs && s1.jobs[JobName(n)].destination == Image(w.spec, w.mem)
    ensures Kept(s1, n, Goto(s1, w, Poll(readyAt)))
    ensures Kept(s1, n, Fail(s1, w))
  {
    hide Inv;
    GotoOk(s1, n, w, Poll(readyAt));
    MarkOk(s1, n, w, MarkFailed, Failed);
  }

  lemma CreateOk(s: State, n: string, w: Worker, io: Io)
    requires Working(s, n, w) && w.pc == CreateJob && n in s.workers && s.workers[n] == w
    ensures Kept(s, n, Create(s, n, w, io))
  {
    hide Inv;
    FailOk(s, n, w);
    if JobName(n) !in s.jobs && !io.fault.Rejected? {
      NewJobOk(s, n, Image(w.spec, w.mem));
      JobCreatedOk(NewJob(s, JobName(n), Image(w.spec, w.mem)), n, w, s.now + 10 * SECOND);
    }
  }

  lemma KeptTags(built: seq<BuiltVersion>, added: BuiltVersion, r: seq<BuiltVersion>, v: BuiltVersion)
    requires UpdateResult(built, added, KEEP, r) && v in r
    ensures v in built || v == added
  {
    if |built| + 1 > KEEP {
      assert v in multiset(r) && v in multiset(built + [added]);
    }
    assert v in built + [added];
  }

  lemma PollSucceeded(s: State, n: string, w: Worker, readyAt: nat, io: Io)
    requires Working(s, n, w) && w.pc == Poll(readyAt) && JobName(n) in s.jobs && s.jobs[JobName(n)].succeeded
    requires UpdateResult(w.mem.built, BuiltVersion(w.mem.git.commitHash, s.now), KEEP, io.built)
    ensures var added := BuiltVersion(w.mem.git.commitHash, s.now);
            Kept(s, n, Mark(s, w.(mem := w.mem.(built := io.built)), MarkDeploying(Some(added)), Deploying))
  {
    hide LabelsTell;
    var added := BuiltVersion(w.mem.git.commitHash, s.now);
    assert JobOk(s.pushed, JobName(n), s.jobs[JobName(n)]);
    ImageIsFamily(s.specs, s.pushed, n, w.base);
    forall v | v in io.built ensures Family(s.specs, n, w.base, v.tag) in s.pushed {
      KeptTags(w.mem.built, added, io.built, v);
    }
    hide Inv, UpdateResult;
    MarkOk(s, n, w.(mem := w.mem.(built := io.built)), MarkDeploying(Some(added)), Deploying);
  }

  lemma PollOk(s: State, n: string, w: Worker, readyAt: nat, io: Io)
    requires Working(s, n, w) && w.pc == Poll(readyAt)
    ensures Kept(s, n, PollJob(s, n, w, readyAt, io))
  {
    hide Inv, UpdateResult;
    SetWorkerOk(s, n, Some(w));
    if s.now >= readyAt {
      if !io.fault.Done? || JobName(n) !in s.jobs {
        FailOk(s, n, w);
      } else if s.jobs[JobName(n)].succeeded {
        if UpdateResult(w.mem.built, BuiltVersion(w.mem.git.commitHash, s.now), KEEP, io.built) { PollSucceeded(s, n, w, readyAt, io); }
      } else if s.jobs[JobName(n)].failed {
        FailOk(s, n, w);
      }
    }
  }

  lemma RecordOk(s: State, recorded: map<string, seq<BuiltVersion>>)
    requires Inv(s)
    ensures Inv(s.(recorded := recorded))
  {
  }

  lemma FinishBuildOk(s: State, n: string, w: Worker, added: Option<BuiltVersion>, io: Io)
    requires Working(s, n, w) && w.pc == MarkDeploying(added)
    ensures Kept(s, n, (FinishBuild(s, n, w, added, io), None))
  {
    hide Inv;
    WithStatusOk(s, n, w.base, w.mem, s.next);
    StatusUpdateOk(s, n, w.base, w.mem, io.fault);
    RecordOk(StatusUpdate(s, n, w.mem, io.fault), FinishBuild(s, n, w, added, io).recorded);
    SetWorkerOk(FinishBuild(s, n, w, added, io), n, None);
  }

  lemma ApplyOk(s: State, key: ObjectKey, o: ClusterObject, fault: Fault)
    requires Inv(s) && ObjectOk(s.specs, s.pushed, key, o)
    ensures var t := Apply(s, key, o, fault);
            Inv(t) && t.specs == s.specs && t.pushed == s.pushed && t.insts == s.insts && t.next == s.next
  {
  }

  lemma SlotObjectOk(specs: map<nat, Spec>, pushed: set<string>, n: string, w: Worker, k: Slot)
    requires WorkerOk(specs, pushed, n, w) && w.pc == Put(k)
    ensures ObjectOk(specs, pushed, SlotKey(k, n), SlotObject(k, w.spec, w.mem))
  {
    ImageIsFamily(specs, pushed, n, w.base);
    ProxyNameEnds(n);
    if k == 0 {
      assert Image(w.spec, w.mem) == ContainerName(specs[w.base.labels.environment], NameSuffix(n), w.base.git.commitHash);
    }
  }

  lemma AppliedOk(s1: State, n: string, w: Worker, k: Slot)
    requires Inv(s1) && WorkerOk(s1.specs, s1.pushed, n, w) && Linked(s1, n, w.base) && w.pc == Put(k)
    ensures k < 5 ==> Kept(s1, n, Goto(s1, w, Put(k + 1)))
    ensures Kept(s1, n, Goto(s1, w, Put(5)))
    ensures Kept(s1, n, Fail(s1, w))
    ensures Kept(s1, n, (s1, Some(w.(pc := PublishUrl, mem := w.mem.(url := PublicUrl(w.spec, w.mem))))))
  {
    hide Inv, EnvDo, EnvWorkerOk, InstanceOk;
    if k < 5 { GotoOk(s1, n, w, Put(k + 1)); }
    GotoOk(s1, n, w, Put(5));
    MarkOk(s1, n, w, MarkFailed, Failed);
    PublishOk(s1, n, w, k);
    hide WorkerOk, Linked, PublicUrl;
  }

  lemma PublishOk(s1: State, n: string, w: Worker, k: Slot)
    requires Inv(s1) && WorkerOk(s1.specs, s1.pushed, n, w) && Linked(s1, n, w.base) && w.pc == Put(k)
    ensures Kept(s1, n, (s1, Some(w.(pc := PublishUrl, mem := w.mem.(url := PublicUrl(w.spec, w.mem))))))
  {
    hide Inv, EnvDo, EnvWorkerOk, InstanceOk, PublicUrl;
    SetWorkerOk(s1, n, Some(w.(pc := PublishUrl, mem := w.mem.(url := PublicUrl(w.spec, w.mem)))));
  }

  lemma PutObjectOk(s: State, n: string, w: Worker, k: Slot, io: Io)
    requires Working(s, n, w) && w.pc == Put(k)
    ensures Kept(s, n, PutObject(s, n, w, k, io))
  {
    SlotObjectOk(s.specs, s.pushed, n, w, k);
    var o := SlotObject(k, w.spec, w.mem);
    ApplyOk(s, SlotKey(k, n), o, io.fault);
    hide Inv, Apply, SlotKey, SlotObject, WorkerOk, SetWorker;
    AppliedOk(Apply(s, SlotKey(k, n), o, io.fault), n, w, k);
  }

  lemma LoseObjectOk(s: State, key: ObjectKey)
    requires Inv(s)
    ensures Inv(s.(objects := s.objects - {key}))
  {
  }

  lemma DeleteObjectOk(s: State, n: string, w: Worker, k: Slot, io: Io)
    requires Working(s, n, w) && w.pc == Del(k)
    ensures Kept(s, n, DeleteObject(s, n, w, k, io))
  {
    hide Inv, SlotKey, LabelsTell;
    var (s1, o) := DeleteObject(s, n, w, k, io);
    LoseObjectOk(s, SlotKey(k, n));
    hide InstanceOk;
    SetWorkerOk(s1, n, o);
  }

  /** A worker that has just read its own successful write. */
  lemma SyncedOk(s: State, n: string, w: Worker, pc: Pc, mem: Instance)
    requires Inv(s) && n in s.insts && !pc.Poll?
    requires WorkerOk(s.specs, s.pushed, n, Synced(s, n, w).(pc := pc, mem := mem))
    ensures Inv(SetWorker(s, n, Some(Synced(s, n, w).(pc := pc, mem := mem))))
  {
    SetWorkerOk(s, n, Some(Synced(s, n, w).(pc := pc, mem := mem)));
  }

  lemma StoredHasTag(built: seq<BuiltVersion>, tag: string)
    ensures HasTag(StoredAll(built), tag) == HasTag(built, tag)
  {
    if HasTag(built, tag) {
      var i :| 0 <= i < |built| && built[i].tag == tag;
      assert StoredAll(built)[i] in StoredAll(built);
    }
  }

  /** The written status, read back, is a good place to go on from. */
  lemma StatusSyncedOk(s: State, n: string, w: Worker, i: Instance, version: nat, pc: Pc)
    requires WorkerOk(s.specs, s.pushed, n, w) && i == WithStatus(w.base, w.mem, version) && InstanceOk(s.specs, s.pushed, n, i)
    requires || (w.pc == MarkBuilding && pc == StartJob)
             || (w.pc == BeginDeploy && pc == Authenticate)
             || (w.pc == PublishUrl && pc == Answer)
    ensures WorkerOk(s.specs, s.pushed, n, w.(base := i, mem := i, pc := pc))
  {
    StoredHasTag(w.mem.built, w.mem.git.commitHash);
    hide InstanceOk, StoredAll;
  }

  lemma StatusWrittenOk(s: State, n: string, w: Worker, pc: Pc)
    requires Working(s, n, w) && Inv(StatusUpdate(s, n, w.mem, Done)) && Accepts(s, n, w.mem, Done)
    requires || (w.pc == MarkBuilding && pc == StartJob)
             || (w.pc == BeginDeploy && pc == Authenticate)
             || (w.pc == PublishUrl && pc == Answer)
    ensures var s1 := StatusUpdate(s, n, w.mem, Done); Inv(SetWorker(s1, n, Some(Synced(s1, n, w).(pc := pc))))
  {
    hide Inv, WithStatus, Accepts;
    var s1 := StatusUpdate(s, n, w.mem, Done);
    WrittenStatus(s, n, w);
    hide AtPc, InstanceOk;
    StoredOk(s1, n);
    StatusSyncedOk(s1, n, w, s1.insts[n], s.next, pc);
    hide WorkerOk;
    SyncedOk(s1, n, w, pc, s1.insts[n]);
  }

  lemma StatusLostOk(s: State, n: string, w: Worker, fault: Fault)
    requires WorkerOk(s.specs, s.pushed, n, w) && Linked(s, n, w.base) && Inv(StatusUpdate(s, n, w.mem, fault))
    requires w.pc == MarkBuilding || w.pc == BeginDeploy || w.pc == PublishUrl
    ensures Inv(SetWorker(StatusUpdate(s, n, w.mem, fault), n, Fail(s, w).1))
  {
    hide Inv;
    MarkOk(StatusUpdate(s, n, w.mem, fault), n, w, MarkFailed, Failed);
  }

  lemma StatusWriteOk(s: State, n: string, w: Worker, io: Io)
    requires Working(s, n, w)
    requires w.pc == MarkBuilding || w.pc == BeginDeploy || w.pc == PublishUrl
    ensures Kept(s, n, Do(s, n, w, io))
  {
    hide Inv;
    WithStatusOk(s, n, w.base, w.mem, s.next);
    StatusUpdateOk(s, n, w.base, w.mem, io.fault);
    if Accepts(s, n, w.mem, io.fault) && io.fault.Done? {
      StatusWrittenOk(s, n, w, if w.pc == MarkBuilding then StartJob else if w.pc == BeginDeploy then Authenticate else Answer);
    } else {
      StatusLostOk(s, n, w, io.fault);
    }
  }

  lemma FinalStatusWriteOk(s: State, n: string, w: Worker, io: Io)
    requires Working(s, n, w)
    requires w.pc == MarkFailed || w.pc == MarkRunning || w.pc == MarkPending
    ensures Kept(s, n, Do(s, n, w, io))
  {
    hide Inv;
    WithStatusOk(s, n, w.base, w.mem, s.next);
    StatusUpdateOk(s, n, w.base, w.mem, io.fault);
    SetWorkerOk(StatusUpdate(s, n, w.mem, io.fault), n, None);
  }

  lemma SpecSyncedOk(s: State, n: string, w: Worker, i: Instance, version: nat, pc: Pc)
    requires WorkerOk(s.specs, s.pushed, n, w) && i == WithSpec(w.base, w.mem, version) && InstanceOk(s.specs, s.pushed, n, i)
    requires (w.pc == AddFinalizer && pc == LoadEnv) || (w.pc == WriteHash && pc == MarkPending)
    ensures WorkerOk(s.specs, s.pushed, n, w.(base := i, mem := if pc == LoadEnv then i else i.(phase := Pending), pc := pc))
  {
    hide InstanceOk;
  }

  /** What a write puts into the store, when the copy is linked to it. */
  lemma WrittenSpec(s: State, n: string, w: Worker)
    requires Linked(s, n, w.base) && AtPc(w) && (w.pc == AddFinalizer || w.pc == WriteHash) && Accepts(s, n, w.mem, Done)
    ensures var t := SpecUpdate(s, n, w.mem, Done);
            && n in t.insts && t.insts[n] == WithSpec(w.base, w.mem, s.next) && t.specs == s.specs && t.pushed == s.pushed
  {
  }

  lemma WrittenStatus(s: State, n: string, w: Worker)
    requires Linked(s, n, w.base) && AtPc(w) && Accepts(s, n, w.mem, Done)
    requires w.pc == MarkBuilding || w.pc == BeginDeploy || w.pc == PublishUrl
    ensures var t := StatusUpdate(s, n, w.mem, Done);
            && n in t.insts && t.insts[n] == WithStatus(w.base, w.mem, s.next) && t.specs == s.specs && t.pushed == s.pushed
  {
    hide StoredAll;
  }

  lemma SpecWrittenOk(s: State, n: string, w: Worker)
    requires Working(s, n, w) && Inv(SpecUpdate(s, n, w.mem, Done)) && Accepts(s, n, w.mem, Done)
    requires w.pc == AddFinalizer || w.pc == WriteHash
    ensures var s1 := SpecUpdate(s, n, w.mem, Done);
            && n in s1.insts
            && (w.pc == AddFinalizer ==> Inv(SetWorker(s1, n, Some(Synced(s1, n, w).(pc := LoadEnv)))))
            && (w.pc == WriteHash ==>
                 Inv(SetWorker(s1, n, Some(Synced(s1, n, w).(pc := MarkPending, mem := s1.insts[n].(phase := Pending))))))
  {
    hide Inv, WithSpec, SpecUpdate;
    var s1 := SpecUpdate(s, n, w.mem, Done);
    WrittenSpec(s, n, w);
    hide AtPc, InstanceOk;
    StoredOk(s1, n);
    var pc := if w.pc == AddFinalizer then LoadEnv else MarkPending;
    SpecSyncedOk(s1, n, w, s1.insts[n], s.next, pc);
    hide WorkerOk;
    SyncedOk(s1, n, w, pc, if pc == LoadEnv then s1.insts[n] else s1.insts[n].(phase := Pending));
  }

  lemma SpecWriteOk(s: State, n: string, w: Worker, io: Io)
    requires Working(s, n, w)
    requires w.pc == AddFinalizer || w.pc == WriteHash || w.pc == RemoveFinalizer
    ensures Kept(s, n, Do(s, n, w, io))
  {
    hide Inv, Cluster.StatusUpdate, SpecUpdate;
    SpecUpdateOk(s, n, w.base, w.mem, io.fault);
    SetWorkerOk(SpecUpdate(s, n, w.mem, io.fault), n, None);
    if Accepts(s, n, w.mem, io.fault) && io.fault.Done? && w.pc != RemoveFinalizer {
      SpecWrittenOk(s, n, w);
    }
  }

  lemma JobStepOk(s: State, n: string, w: Worker, io: Io)
    requires Working(s, n, w) && (w.pc == DeleteBare || w.pc == StartJob || w.pc == DeleteJob || w.pc == WaitGone)
    ensures Kept(s, n, Do(s, n, w, io))
  {
    hide Inv;
    if Do(s, n, w, io) == Fail(s, w) {
      FailOk(s, n, w);
    } else {
      SetWorkerOk(s, n, Do(s, n, w, io).1);
    }
  }

  lemma CallStepOk(s: State, n: string, w: Worker, io: Io)
    requires Working(s, n, w) && (w.pc == Authenticate || w.pc == Answer || w.pc == Latest)
    ensures Kept(s, n, Do(s, n, w, io))
  {
    hide Inv, EnvWorkerOk, InstanceOk, Cluster.EnvUpdate, UpdateResult;
    if Do(s, n, w, io) == Fail(s, w) {
      FailOk(s, n, w);
    } else {
      SetWorkerOk(s, n, Do(s, n, w, io).1);
    }
  }

  lemma WorkOk(s: State, n: string, io: Io)
    requires Inv(s)
    ensures Inv(Step(s, Work(n, io)))
  {
    hide AtPc, WorkerOk, EnvWorkerOk, Inv, Linked, JobLinked;
    if n in s.workers {
      WorkerFacts(s, n);
      var w := s.workers[n];
      match w.pc
      case LoadEnv => LoadOk(s, n, w, io);
      case JobCheck => CheckJobOk(s, n, w, io);
      case CreateJob => CreateOk(s, n, w, io);
      case Poll(readyAt) => PollOk(s, n, w, readyAt, io);
      case MarkDeploying(added) => FinishBuildOk(s, n, w, added, io);
      case Put(k) => PutObjectOk(s, n, w, k, io);
      case Del(k) => DeleteObjectOk(s, n, w, k, io);
      case MarkBuilding => StatusWriteOk(s, n, w, io);
      case BeginDeploy => StatusWriteOk(s, n, w, io);
      case PublishUrl => StatusWriteOk(s, n, w, io);
      case MarkFailed => FinalStatusWriteOk(s, n, w, io);
      case MarkRunning => FinalStatusWriteOk(s, n, w, io);
      case MarkPending => FinalStatusWriteOk(s, n, w, io);
      case AddFinalizer => SpecWriteOk(s, n, w, io);
      case WriteHash => SpecWriteOk(s, n, w, io);
      case RemoveFinalizer => SpecWriteOk(s, n, w, io);
      case Authenticate => CallStepOk(s, n, w, io);
      case Answer => CallStepOk(s, n, w, io);
      case Latest => CallStepOk(s, n, w, io);
      case _ => JobStepOk(s, n, w, io);
    }
  }

  // ---------------------------------------------------------------- the environment reconciler keeps it

  lemma PullDraftOk(env: Environment, p: PullRequest)
    ensures DraftOk(env, PullDraft(env, p))
  {
    var spec := env.spec;
    InstanceNamePrefix(spec.owner, spec.name, spec.organization, spec.repository, "pr-" + Itoa(p.number));
    NumberRecovered(spec, p.number, PullRequestName(spec, p.number));
  }

  lemma BranchDraftOk(env: Environment, branch: string)
    ensures DraftOk(env, BranchDraft(env, branch))
  {
    var spec := env.spec;
    InstanceNamePrefix(spec.owner, spec.name, spec.organization, spec.repository, branch);
  }

  lemma DraftsOk(env: Environment, pulls: seq<PullRequest>, branches: seq<string>)
    ensures forall d | d in PullDrafts(env, pulls) :: DraftOk(env, d)
    ensures forall d | d in BranchDrafts(env, branches) :: DraftOk(env, d)
  {
    forall i | 0 <= i < |pulls| ensures DraftOk(env, PullDrafts(env, pulls)[i]) { PullDraftOk(env, pulls[i]); }
    forall i | 0 <= i < |branches| ensures DraftOk(env, BranchDrafts(env, branches)[i]) { BranchDraftOk(env, branches[i]); }
  }

  lemma PutEnvOk(s: State, e: string, env: Environment)
    requires Inv(s) && EnvKnown(s.specs, env)
    ensures Inv(EnvUpdate(s, e, env))
  {
    hide InstanceOk, WorkerOk, JobOk, ObjectOk;
  }

  ghost predicate EnvKept(e: string, o: EnvOutcome) { Inv(SetEnvWorker(o.0, e, o.1)) }

  ghost predicate EnvWorking(s: State, w: EnvWorker) { Inv(s) && EnvWorkerOk(s, w) }

  lemma MergedOk(s: State, w: EnvWorker, d: Draft, existing: Instance)
    requires EnvKnown(s.specs, w.copy) && DraftOk(w.copy, d) && InstanceOk(s.specs, s.pushed, d.name, existing)
    ensures InstanceOk(s.specs, s.pushed, d.name, WithSpec(existing, Merged(existing, d), s.next))
  {
  }

  lemma CreateInstanceOk(s: State, w: EnvWorker, d: Draft)
    requires EnvWorking(s, w) && DraftOk(w.copy, d)
    ensures Inv(CreateInstance(s, d))
  {
    var i := Instance(d.labels, false, false, s.next, d.git, "running", NoPhase, [], "");
    PutInstanceOk(s, d.name, i);
    RecordOk(PutInstance(s, d.name, i), s.recorded[d.name := []]);
  }

  lemma SavedOk(s1: State, e: string, w: EnvWorker)
    requires Inv(s1) && EnvKnown(s1.specs, w.copy) && w.pc.SaveWrite? && w.pc.todo != []
    requires forall d | d in w.pc.todo :: DraftOk(w.copy, d)
    ensures EnvKept(e, EnvGoto(s1, w, SaveRead(w.pc.todo[1..]))) && EnvKept(e, (s1, None))
  {
    hide Inv;
    SetEnvWorkerOk(s1, e, Some(w.(pc := SaveRead(w.pc.todo[1..]))));
    SetEnvWorkerOk(s1, e, None);
  }

  lemma UpdateExistingOk(s: State, e: string, w: EnvWorker, i: Instance, io: Io)
    requires EnvWorking(s, w) && w.pc.SaveWrite? && w.pc.todo != [] && w.pc.existing == Some(i)
    ensures var s1 := SpecUpdate(s, w.pc.todo[0].name, Merged(i, w.pc.todo[0]), io.fault);
            EnvKept(e, EnvGoto(s1, w, SaveRead(w.pc.todo[1..]))) && EnvKept(e, (s1, None))
  {
    hide Inv;
    var d := w.pc.todo[0];
    MergedOk(s, w, d, i);
    SpecUpdateOk(s, d.name, i, Merged(i, d), io.fault);
    SavedOk(SpecUpdate(s, d.name, Merged(i, d), io.fault), e, w);
  }

  lemma CreateNewOk(s: State, e: string, w: EnvWorker)
    requires EnvWorking(s, w) && w.pc.SaveWrite? && w.pc.todo != []
    ensures var s1 := CreateInstance(s, w.pc.todo[0]);
            EnvKept(e, EnvGoto(s1, w, SaveRead(w.pc.todo[1..]))) && EnvKept(e, (s1, None))
  {
    hide Inv;
    CreateInstanceOk(s, w, w.pc.todo[0]);
    SavedOk(CreateInstance(s, w.pc.todo[0]), e, w);
  }

  lemma SaveOk(s: State, e: string, w: EnvWorker, io: Io)
    requires EnvWorking(s, w) && w.pc.SaveWrite? && w.pc.todo != []
    ensures EnvKept(e, Save(s, w, w.pc.todo, w.pc.existing, io))
  {
    hide Inv;
    if w.pc.existing.Some? && w.pc.existing.value.desired != "" {
      UpdateExistingOk(s, e, w, w.pc.existing.value, io);
    } else {
      SetEnvWorkerOk(s, e, None);
      CreateNewOk(s, e, w);
    }
  }

  lemma SaveReadOk(s: State, e: string, w: EnvWorker, io: Io)
    requires EnvWorking(s, w) && w.pc.SaveRead?
    ensures EnvKept(e, EnvDo(s, e, w, io))
  {
    hide Inv;
    SetEnvWorkerOk(s, e, None);
    if w.pc.todo != [] && io.fault.Done? {
      if w.pc.todo[0].name in s.insts { StoredOk(s, w.pc.todo[0].name); }
      SetEnvWorkerOk(s, e, EnvDo(s, e, w, io).1);
    }
  }

  lemma EnvWriteOk(s: State, e: string, w: EnvWorker, io: Io)
    requires EnvWorking(s, w) && (w.pc.EnvAddFinalizer? || w.pc.EnvRemoveFinalizer?)
    ensures EnvKept(e, EnvDo(s, e, w, io))
  {
    hide Inv;
    PutEnvOk(s, e, w.copy.(finalizer := true));
    PutEnvOk(s, e, w.copy.(finalizer := false));
    var (s1, o) := EnvDo(s, e, w, io);
    SetEnvWorkerOk(s1, e, o);
  }

  lemma EnvListOk(s: State, e: string, w: EnvWorker, io: Io)
    requires EnvWorking(s, w)
    requires w.pc.ListPulls? || w.pc.ListBranches? || w.pc.ListInstances?
    ensures EnvKept(e, EnvDo(s, e, w, io))
  {
    hide Inv;
    DraftsOk(w.copy, io.pulls, io.branches);
    SetEnvWorkerOk(s, e, EnvDo(s, e, w, io).1);
  }

  lemma DeletingOk(s: State, s1: State, w: EnvWorker, names: seq<string>)
    requires EnvWorkerOk(s, w) && w.pc.DeleteNext? && s1.specs == s.specs
    ensures EnvWorkerOk(s1, w.(pc := DeleteNext(names))) && EnvWorkerOk(s1, w.(pc := EnvRemoveFinalizer))
  {
  }

  lemma EnvDeleteOk(s: State, e: string, w: EnvWorker, io: Io)
    requires EnvWorking(s, w) && w.pc.DeleteNext?
    ensures EnvKept(e, EnvDo(s, e, w, io))
  {
    hide Inv, RequestDelete, SetEnvWorker, Linked, InstanceOk;
    var (s1, o) := EnvDo(s, e, w, io);
    if w.pc.names == [] {
      DeletingOk(s, s, w, []);
    } else if w.pc.names[0] in s.insts {
      RequestDeleteOk(s, w.pc.names[0]);
      DeletingOk(s, s, w, w.pc.names[1..]);
      DeletingOk(s, RequestDelete(s, w.pc.names[0]), w, w.pc.names[1..]);
    }
    hide EnvWorkerOk;
    SetEnvWorkerOk(s1, e, o);
  }

  lemma EnvWorkOk(s: State, e: string, io: Io)
    requires Inv(s)
    ensures Inv(Step(s, EnvWork(e, io)))
  {
    if e in s.envWorkers {
      var w := s.envWorkers[e];
      match w.pc
      case EnvAddFinalizer => EnvWriteOk(s, e, w, io);
      case EnvRemoveFinalizer => EnvWriteOk(s, e, w, io);
      case SaveRead(_) => SaveReadOk(s, e, w, io);
      case SaveWrite(todo, _) => if todo != [] { SaveOk(s, e, w, io); } else { SetEnvWorkerOk(s, e, None); }
      case DeleteNext(_) => EnvDeleteOk(s, e, w, io);
      case _ => EnvListOk(s, e, w, io);
    }
  }

  // ---------------------------------------------------------------- everyone else keeps it

  lemma BeginOk(s: State, n: string)
    requires Inv(s)
    ensures Inv(Step(s, Begin(n)))
  {
    hide LabelsTell;
    hide EnvDo;
    if n !in s.workers && n in s.insts && FirstPc(s.insts[n]).Some? {
      var (pc, mem) := FirstPc(s.insts[n]).value;
      SetWorkerOk(s, n, Some(Worker(pc, s.insts[n], mem, NO_SPEC)));
    }
  }

  lemma EnvBeginOk(s: State, e: string)
    requires Inv(s)
    ensures Inv(Step(s, EnvBegin(e)))
  {
    if e !in s.envWorkers && e in s.envs && FirstEnvPc(s.envs[e]).Some? {
      SetEnvWorkerOk(s, e, Some(EnvWorker(FirstEnvPc(s.envs[e]).value, s.envs[e])));
    }
  }

  lemma HandlerWriteOk(s: State, id: nat, fault: Fault)
    requires Inv(s)
    ensures Inv(Step(s, HandlerWrite(id, fault)))
  {
    hide Inv, WithStatus, Accepts;
    if id in s.handlers {
      var h := s.handlers[id];
      HandlerFacts(s, id);
      WithStatusOk(s, h.name, h.copy, h.copy.(phase := Pending), s.next);
      StatusUpdateOk(s, h.name, h.copy, h.copy.(phase := Pending), fault);
      DropHandlerOk(StatusUpdate(s, h.name, h.copy.(phase := Pending), fault), id);
    }
  }

  lemma DropHandlerOk(s: State, id: nat)
    requires Inv(s)
    ensures Inv(s.(handlers := s.handlers - {id}))
  {
  }

  lemma WorkersGrow(s: State, t: State)
    requires WorkersOk(s) && s.pushed <= t.pushed && t.workers == s.workers && t.jobs == s.jobs && t.insts == s.insts && t.next == s.next
    requires forall uid | uid in s.specs :: uid in t.specs && t.specs[uid] == s.specs[uid]
    ensures WorkersOk(t)
  {
    forall n | n in s.workers ensures WorkerOk(t.specs, t.pushed, n, s.workers[n]) {
      assert WorkerOk(s.specs, s.pushed, n, s.workers[n]);
      InstanceOkGrows(s.specs, t.specs, s.pushed, t.pushed, n, s.workers[n].base);
    }
    hide AtPc, InstanceOk;
  }

  lemma EnvsGrow(s: State, t: State)
    requires EnvsOk(s) && s.pushed <= t.pushed && t.envs == s.envs && t.envWorkers == s.envWorkers && t.insts == s.insts && t.next == s.next
    requires forall uid | uid in s.specs :: uid in t.specs && t.specs[uid] == s.specs[uid]
    requires forall uid | uid in t.specs :: uid < t.nextUid
    ensures EnvsOk(t)
  {
    forall e | e in s.envWorkers ensures EnvWorkerOk(t, s.envWorkers[e]) {
      var w := s.envWorkers[e];
      assert EnvWorkerOk(s, w);
      if w.pc.SaveWrite? && w.pc.existing.Some? {
        InstanceOkGrows(s.specs, t.specs, s.pushed, t.pushed, w.pc.todo[0].name, w.pc.existing.value);
      }
    }
    hide InstanceOk;
  }

  lemma StoredGrow(s: State, t: State)
    requires InstancesOk(s) && HandlersOk(s) && s.pushed <= t.pushed && t.insts == s.insts && t.handlers == s.handlers && t.next == s.next
    requires forall uid | uid in s.specs :: uid in t.specs && t.specs[uid] == s.specs[uid]
    ensures InstancesOk(t) && HandlersOk(t)
  {
    forall n, i | InstanceOk(s.specs, s.pushed, n, i) ensures InstanceOk(t.specs, t.pushed, n, i) {
      InstanceOkGrows(s.specs, t.specs, s.pushed, t.pushed, n, i);
    }
    hide InstanceOk;
  }

  lemma GrowOk(s: State, specs: map<nat, Spec>, pushed: set<string>, nextUid: nat)
    requires Inv(s) && s.pushed <= pushed && s.nextUid <= nextUid
    requires forall uid | uid in s.specs :: uid in specs && specs[uid] == s.specs[uid]
    requires forall uid | uid in specs :: uid < nextUid
    ensures Inv(s.(specs := specs, pushed := pushed, nextUid := nextUid))
  {
    var s1 := s.(specs := specs, pushed := pushed, nextUid := nextUid);
    hide InstancesOk, HandlersOk, EnvsOk, WorkersOk;
    StoredGrow(s, s1);
    WorkersGrow(s, s1);
    EnvsGrow(s, s1);
  }

  lemma FreshUid(s: State)
    requires Inv(s)
    ensures s.nextUid !in s.specs && forall uid | uid in s.specs :: uid < s.nextUid
  {
  }

  lemma CreateEnvOk(s: State, e: string, spec: Spec)
    requires Inv(s)
    ensures Inv(Step(s, CreateEnv(e, spec)))
  {
    hide Inv;
    if e !in s.envs && spec.name == e {
      FreshUid(s);
      var specs := s.specs[s.nextUid := spec];
      GrowOk(s, specs, s.pushed, s.nextUid + 1);
      var s1 := s.(specs := specs, pushed := s.pushed, nextUid := s.nextUid + 1);
      PutEnvOk(s1, e, Environment(s.nextUid, spec, false, false, s.next));
      assert EnvUpdate(s1, e, Environment(s.nextUid, spec, false, false, s.next)) == Step(s, CreateEnv(e, spec));
    }
  }

  lemma PushOk(s: State, pushed: set<string>)
    requires Inv(s) && s.pushed <= pushed
    ensures Inv(s.(pushed := pushed))
  {
    hide Inv;
    FreshUid(s);
    GrowOk(s, s.specs, pushed, s.nextUid);
    assert s.(specs := s.specs, pushed := pushed, nextUid := s.nextUid) == s.(pushed := pushed);
  }

  lemma ReportOk(s: State, j: string, active: bool, succeeded: bool, failed: bool)
    requires Inv(s)
    ensures Inv(Step(s, JobReport(j, active, succeeded, failed)))
  {
    hide Inv;
    if j in s.jobs {
      var job := s.jobs[j].(active := active, succeeded := succeeded, failed := failed);
      var pushed := if succeeded then s.pushed + {job.destination} else s.pushed;
      PushOk(s, pushed);
      SetJobOk(s.(pushed := pushed), j, job);
      assert s.(pushed := pushed).(jobs := s.jobs[j := job]) == Report(s, j, job);
    }
  }

  lemma SetJobOk(s: State, j: string, job: Job)
    requires Inv(s) && j in s.jobs && job.destination == s.jobs[j].destination
    requires job.succeeded ==> job.destination in s.pushed
    ensures Inv(s.(jobs := s.jobs[j := job]))
  {
    var t := s.(jobs := s.jobs[j := job]);
    hide InstancesOk, HandlersOk, EnvsOk, ObjectsOk, WorkerOk;
    SameInstances(s, t);
    SameHandlers(s, t);
    SameEnvs(s, t);
    SameObjects(s, t);
  }

  lemma EditOk(s: State, n: string, desired: string)
    requires Inv(s)
    ensures Inv(Step(s, EditInstance(n, desired))) && Inv(Step(s, DeleteInstance(n)))
  {
    if n in s.insts {
      RequestDeleteOk(s, n);
      PutInstanceOk(s, n, s.insts[n].(desired := desired, version := s.next));
    }
  }

  lemma EditEnvOk(s: State, e: string)
    requires Inv(s)
    ensures Inv(Step(s, DeleteEnv(e))) && Inv(Step(s, EditEnv(e)))
  {
    if e in s.envs {
      PutEnvOk(s, e, s.envs[e].(deleting := true));
      PutEnvOk(s, e, s.envs[e]);
    }
  }

  lemma ReadHandlerOk(s: State, id: nat, n: string)
    requires Inv(s) && n in s.insts && InstanceOk(s.specs, s.pushed, n, s.insts[n]) && s.insts[n].version < s.next
    ensures Inv(s.(handlers := s.handlers[id := Handler(n, s.insts[n])]))
  {
    hide LabelsTell;
    var t := s.(handlers := s.handlers[id := Handler(n, s.insts[n])]);
    hide InstancesOk, WorkersOk, EnvsOk, JobsOk, ObjectsOk, InstanceOk;
    SameInstances(s, t);
    SameWorkers(s, t);
    SameEnvs(s, t);
    SameJobs(s, t);
    SameObjects(s, t);
  }

  lemma HandlerReadOk(s: State, id: nat, n: string)
    requires Inv(s)
    ensures Inv(Step(s, HandlerRead(id, n)))
  {
    hide Inv, Do, EnvDo;
    if n in s.insts {
      StoredOk(s, n);
      ReadHandlerOk(s, id, n);
    } else {
      assert Step(s, HandlerRead(id, n)) == s;
    }
  }

  lemma JobRemovedOk(s: State, j: string)
    requires Inv(s)
    ensures Inv(Step(s, JobRemoved(j)))
  {
    hide Run, Do, WorkerOk;
  }

  lemma TickOk(s: State, d: nat)
    requires Inv(s)
    ensures Inv(Step(s, Tick(d)))
  {
    hide LabelsTell;
    hide Do;
  }

  lemma StepOk(s: State, ev: Event)
    requires Inv(s)
    ensures Inv(Step(s, ev))
  {
    hide Inv;
    match ev
    case Begin(n) => BeginOk(s, n);
    case Work(n, io) => WorkOk(s, n, io);
    case Crash(n) => SetWorkerOk(s, n, None);
    case EnvBegin(e) => EnvBeginOk(s, e);
    case EnvWork(e, io) => EnvWorkOk(s, e, io);
    case EnvCrash(e) => SetEnvWorkerOk(s, e, None);
    case HandlerWrite(id, fault) => HandlerWriteOk(s, id, fault);
    case CreateEnv(e, spec) => CreateEnvOk(s, e, spec);
    case DeleteEnv(e) => EditEnvOk(s, e);
    case EditEnv(e) => EditEnvOk(s, e);
    case DeleteInstance(n) => EditOk(s, n, "");
    case EditInstance(n, desired) => EditOk(s, n, desired);
    case JobReport(j, a, su, f) => ReportOk(s, j, a, su, f);
    case HandlerRead(id, n) => HandlerReadOk(s, id, n);
    case JobRemoved(j) => JobRemovedOk(s, j);
    case LoseObject(key) => LoseObjectOk(s, key);
    case Tick(d) => TickOk(s, d);
  }

  lemma {:induction false} RunOk(now: nat, evs: seq<Event>)
    ensures Inv(Run(Init(now), evs))
  {
    if evs != [] {
      RunOk(now, evs[..|evs| - 1]);
      StepOk(Run(Init(now), evs[..|evs| - 1]), evs[|evs| - 1]);
    }
  }

  lemma BuiltAtEnd(now: nat, evs: seq<Event>, name: string)
    requires !EndsWith(name, PROXY_SUFFIX) && ObjectKey(Deployment, name) in Run(Init(now), evs).objects
    ensures var s := Run(Init(now), evs); var o := s.objects[ObjectKey(Deployment, name)];
            o.Workload? && o.image in s.pushed && MadeFor(s.specs, name, o.image)
  {
    RunOk(now, evs);
    var s := Run(Init(now), evs);
    var key := ObjectKey(Deployment, name);
    assert ObjectOk(s.specs, s.pushed, key, s.objects[key]);
  }

  lemma LabelsAtEnd(now: nat, evs: seq<Event>, n: string)
    requires n in Run(Init(now), evs).insts
    ensures var s := Run(Init(now), evs); var l := s.insts[n].labels;
            l.environment in s.specs && LabelsTell(s.specs[l.environment], n, l)
  {
    RunOk(now, evs);
    StoredOk(Run(Init(now), evs), n);
  }

  lemma FamilyAtEnd(now: nat, evs: seq<Event>, n: string)
    requires n in Run(Init(now), evs).insts
    ensures var s := Run(Init(now), evs); var i := s.insts[n];
            && i.labels.environment in s.specs
            && (i.git.pullRequestNumber.None? ==> i.git.commitHash == "")
            && (i.git.pullRequestNumber.Some? ==> Itoa(i.git.pullRequestNumber.value) == NameSuffix(n))
            && (forall v | v in i.built :: Family(s.specs, n, i, v.tag) in s.pushed)
            && (i.phase.Deploying? && i.git.commitHash != "" ==> Image(s.specs[i.labels.environment], i) in s.pushed)
  {
    RunOk(now, evs);
    StoredOk(Run(Init(now), evs), n);
  }
}
