/** The operator and everything it shares objects with, as one small-step machine.

    Each step is one API call, one message from outside, or one thing that happens by itself. A worker
    is a reconcile in flight: where it is, the object as the API server last returned it (`base`) and the
    copy the code has been changing in memory (`mem`). At most one reconcile per key is in flight. */
module Cluster {
  import opened Text
  import opened Naming
  import opened Versions

  // ---------------------------------------------------------------- stored objects

  /** "" is the phase of an instance nobody has marked yet. */
  datatype Phase = NoPhase | Pending | Building | Deploying | Running | Failed | Stopped

  datatype Labels = Labels(owner: string, environment: nat, organization: string, repository: string, identifier: string)

  datatype Instance = Instance(
    labels: Labels, finalizer: bool, deleting: bool, version: nat,  // metadata
    git: GitSettings, desired: string,                              // spec
    phase: Phase, built: seq<BuiltVersion>, url: string)            // status

  datatype Environment = Environment(uid: nat, spec: Spec, finalizer: bool, deleting: bool, version: nat)

  datatype ClusterObject = Workload(image: string) | Endpoint | Route(host: string, path: string)

  datatype Job = Job(destination: string, active: bool, succeeded: bool, failed: bool)

  datatype PullRequest = PullRequest(number: PrNumber, headRef: string)

  datatype Draft = Draft(name: string, labels: Labels, git: GitSettings)

  // ---------------------------------------------------------------- reconciles in flight

  datatype Pc =
    | AddFinalizer | LoadEnv
    | JobCheck | DeleteBare | MarkBuilding | StartJob | DeleteJob | WaitGone | CreateJob | Poll(readyAt: nat)
    | MarkDeploying(added: Option<BuiltVersion>) | MarkFailed
    | BeginDeploy | Authenticate | Put(k: Slot) | PublishUrl | Answer | MarkRunning
    | Latest | WriteHash | MarkPending
    | Del(k: Slot) | RemoveFinalizer

  datatype Worker = Worker(pc: Pc, base: Instance, mem: Instance, spec: Spec)

  datatype EnvPc =
    | EnvAddFinalizer | ListPulls | ListBranches(found: seq<Draft>)
    | SaveRead(todo: seq<Draft>) | SaveWrite(todo: seq<Draft>, existing: Option<Instance>)
    | ListInstances | DeleteNext(names: seq<string>) | EnvRemoveFinalizer

  datatype EnvWorker = EnvWorker(pc: EnvPc, copy: Environment)

  /** A webhook handler that has listed an instance and is about to mark its copy. */
  datatype Handler = Handler(name: string, copy: Instance)

  datatype State = State(
    insts: map<string, Instance>, envs: map<string, Environment>,
    objects: map<ObjectKey, ClusterObject>, jobs: map<string, Job>,
    workers: map<string, Worker>, envWorkers: map<string, EnvWorker>, handlers: map<nat, Handler>,
    next: nat, nextUid: nat, now: nat,
    // history: nothing reads it
    specs: map<nat, Spec>, pushed: set<string>, recorded: map<string, seq<BuiltVersion>>, builds: map<string, seq<string>>)

  function Init(now: nat): State {
    State(map[], map[], map[], map[], map[], map[], map[], 0, 0, now, map[], {}, map[], map[])
  }

  // ---------------------------------------------------------------- events

  /** How an API call ends: done, refused without effect, or carried out with the answer lost. */
  datatype Fault = Done | Rejected | Lost

  /** What the world answers to the call a worker makes next. */
  datatype Io = Io(fault: Fault, env: string, latest: string, built: seq<BuiltVersion>,
                   pulls: seq<PullRequest>, branches: seq<string>, names: seq<string>)

  datatype Event =
    | Begin(n: string) | Work(n: string, io: Io) | Crash(n: string)
    | EnvBegin(e: string) | EnvWork(e: string, io: Io) | EnvCrash(e: string)
    | HandlerRead(id: nat, n: string) | HandlerWrite(id: nat, fault: Fault)
    | CreateEnv(e: string, spec: Spec) | DeleteEnv(e: string) | EditEnv(e: string)
    | DeleteInstance(n: string) | EditInstance(n: string, desired: string)
    | JobReport(j: string, active: bool, succeeded: bool, failed: bool) | JobRemoved(j: string)
    | LoseObject(key: ObjectKey) | Tick(d: nat)

  // ---------------------------------------------------------------- the API server

  const SECOND := 1000  // the clock counts milliseconds

  /** Timestamps are stored as RFC 3339 text, in whole seconds. */
  function Stored(v: BuiltVersion): BuiltVersion { v.(timestamp := v.timestamp - v.timestamp % SECOND) }

  function StoredAll(s: seq<BuiltVersion>): seq<BuiltVersion> { seq(|s|, i requires 0 <= i < |s| => Stored(s[i])) }

  function WithStatus(stored: Instance, mem: Instance, version: nat): Instance {
    stored.(version := version, phase := mem.phase, built := StoredAll(mem.built), url := mem.url)
  }

  function WithSpec(stored: Instance, mem: Instance, version: nat): Instance {
    mem.(version := version, deleting := stored.deleting, phase := stored.phase, built := stored.built, url := stored.url)
  }

  predicate Accepts(s: State, n: string, mem: Instance, fault: Fault) {
    !fault.Rejected? && n in s.insts && s.insts[n].version == mem.version
  }

  function PutInstance(s: State, n: string, i: Instance): State {
    s.(insts := s.insts[n := i], next := s.next + 1)
  }

  function DropInstance(s: State, n: string): State {
    s.(insts := s.insts - {n}, next := s.next + 1)
  }

  /** Status().Update: keeps the stored metadata and spec, refuses a stale version. */
  function StatusUpdate(s: State, n: string, mem: Instance, fault: Fault): State {
    if Accepts(s, n, mem, fault) then PutInstance(s, n, WithStatus(s.insts[n], mem, s.next)) else s
  }

  /** Update: keeps the stored status, refuses a stale version, and lets a deleted object go with its last finalizer. */
  function SpecUpdate(s: State, n: string, mem: Instance, fault: Fault): State {
    if !Accepts(s, n, mem, fault) then s
    else if s.insts[n].deleting && !mem.finalizer then DropInstance(s, n)
    else PutInstance(s, n, WithSpec(s.insts[n], mem, s.next))
  }

  /** Delete: only marks an object that still has a finalizer. */
  function RequestDelete(s: State, n: string): State
    requires n in s.insts
  {
    if !s.insts[n].finalizer then DropInstance(s, n)
    else if s.insts[n].deleting then s
    else PutInstance(s, n, s.insts[n].(deleting := true, version := s.next))
  }

  /** Create: drops the status that came with the object. */
  function CreateInstance(s: State, d: Draft): State {
    PutInstance(s, d.name, Instance(d.labels, false, false, s.next, d.git, "running", NoPhase, [], ""))
      .(recorded := s.recorded[d.name := []])
  }

  // ---------------------------------------------------------------- the instance reconciler

  const PROXY_IMAGE := "quay.io/oauth2-proxy/oauth2-proxy:latest"

  function Image(spec: Spec, i: Instance): string {
    ContainerName(spec, i.git.Identifier(), i.git.commitHash)
  }

  function PathOf(spec: Spec, i: Instance): string {
    HttpPath(spec.organization, spec.repository, i.git.Identifier(), i.git.commitHash)
  }

  function SlotObject(k: Slot, spec: Spec, i: Instance): ClusterObject {
    if k == 0 then Workload(Image(spec, i))
    else if k == 2 then Workload(PROXY_IMAGE)
    else if k == 4 then Route(spec.hostname, PathOf(spec, i) + "/oauth2")
    else if k == 5 then Route(spec.hostname, PathOf(spec, i))
    else Endpoint
  }

  function PublicUrl(spec: Spec, i: Instance): string { "https://" + spec.hostname + PathOf(spec, i) }

  type Outcome = (State, Option<Worker>)

  function Goto(s: State, w: Worker, pc: Pc): Outcome { (s, Some(w.(pc := pc))) }

  function Mark(s: State, w: Worker, pc: Pc, phase: Phase): Outcome { (s, Some(w.(pc := pc, mem := w.mem.(phase := phase)))) }

  function Fail(s: State, w: Worker): Outcome { Mark(s, w, MarkFailed, Failed) }

  /** The client decodes the server's answer into the copy in memory. */
  function Synced(s: State, n: string, w: Worker): Worker
    requires n in s.insts
  {
    w.(base := s.insts[n], mem := s.insts[n])
  }

  predicate HasTag(built: seq<BuiltVersion>, tag: string) { exists v | v in built :: v.tag == tag }

  /** rebuildInstance up to its first API call. */
  function StartRebuild(s: State, w: Worker): Outcome {
    if w.mem.git.commitHash == "" || HasTag(w.mem.built, w.mem.git.commitHash)
    then Mark(s, w, MarkDeploying(None), Deploying)
    else Goto(s, w, JobCheck)
  }

  function Dispatch(s: State, w: Worker): Outcome {
    match w.mem.phase
    case Pending => StartRebuild(s, w)
    case Deploying => if w.mem.git.commitHash == "" then Goto(s, w, Answer) else Goto(s, w, BeginDeploy)
    case _ => Goto(s, w, Latest)
  }

  function Load(s: State, w: Worker, io: Io): Outcome {
    var uid := w.mem.labels.environment;
    if !io.fault.Done? then (s, None)
    else if io.env in s.envs && s.envs[io.env].uid == uid then Dispatch(s, w.(spec := s.envs[io.env].spec))
    else if forall e | e in s.envs :: s.envs[e].uid != uid then (s, None)
    else (s, Some(w))
  }

  /** The lookup by the bare instance name in buildContainerImage. */
  function CheckJob(s: State, n: string, w: Worker, io: Io): Outcome {
    if !io.fault.Done? then Fail(s, w)
    else if n !in s.jobs then Mark(s, w, MarkBuilding, Building)
    else if s.jobs[n].active then Mark(s, w, MarkDeploying(None), Deploying)
    else if s.jobs[n].succeeded then Goto(s, w, DeleteBare)
    else Mark(s, w, MarkBuilding, Building)
  }

  /** The images that build jobs of this name have been made for. */
  function BuildsOf(s: State, j: string): seq<string> { if j in s.builds then s.builds[j] else [] }

  function NewJob(s: State, j: string, image: string): State {
    s.(jobs := s.jobs[j := Job(image, false, false, false)], builds := s.builds[j := BuildsOf(s, j) + [image]])
  }

  function Create(s: State, n: string, w: Worker, io: Io): Outcome {
    if JobName(n) in s.jobs || io.fault.Rejected? then Fail(s, w) else
      var s1 := NewJob(s, JobName(n), Image(w.spec, w.mem));
      if io.fault.Done? then Goto(s1, w, Poll(s.now + 10 * SECOND)) else Fail(s1, w)
  }

  function PollJob(s: State, n: string, w: Worker, readyAt: nat, io: Io): Outcome {
    if s.now < readyAt then (s, Some(w))
    else if !io.fault.Done? || JobName(n) !in s.jobs then Fail(s, w)
    else if s.jobs[JobName(n)].succeeded then
      var added := BuiltVersion(w.mem.git.commitHash, s.now);
      if UpdateResult(w.mem.built, added, KEEP, io.built)
      then Mark(s, w.(mem := w.mem.(built := io.built)), MarkDeploying(Some(added)), Deploying)
      else (s, Some(w))
    else if s.jobs[JobName(n)].failed then Fail(s, w)
    else (s, Some(w))
  }

  function FinishBuild(s: State, n: string, w: Worker, added: Option<BuiltVersion>, io: Io): State {
    var s1 := StatusUpdate(s, n, w.mem, io.fault);
    if Accepts(s, n, w.mem, io.fault) && added.Some? && n in s.recorded
    then s1.(recorded := s.recorded[n := s.recorded[n] + [Stored(added.value)]])
    else s1
  }

  /** Create-or-update of one object, on which no version is checked. */
  function Apply(s: State, key: ObjectKey, o: ClusterObject, fault: Fault): State {
    if fault.Rejected? then s else s.(objects := s.objects[key := o])
  }

  function PutObject(s: State, n: string, w: Worker, k: Slot, io: Io): Outcome {
    var s1 := Apply(s, SlotKey(k, n), SlotObject(k, w.spec, w.mem), io.fault);
    if io.fault.Done? then
      if k < 5 then Goto(s1, w, Put(k + 1))
      else (s1, Some(w.(pc := PublishUrl, mem := w.mem.(url := PublicUrl(w.spec, w.mem)))))
    else if 2 <= k <= 4 then Goto(s1, w, Put(5))  // proxy errors are only logged
    else Fail(s1, w)
  }

  /** The next delete: errors are logged, and an error inside the proxy's deletes skips the rest of them. */
  function AfterDelete(k: Slot, ok: bool): Option<Slot> {
    if k == 5 then None else if !ok && 2 <= k <= 4 then Some(5) else Some(k + 1)
  }

  function DeleteObject(s: State, n: string, w: Worker, k: Slot, io: Io): Outcome {
    var key := SlotKey(k, n);
    var s1 := if io.fault.Rejected? then s else s.(objects := s.objects - {key});
    match AfterDelete(k, io.fault.Done? && key in s.objects)
    case Some(k') => Goto(s1, w, Del(k'))
    case None => (s1, Some(w.(pc := RemoveFinalizer, mem := w.mem.(finalizer := false))))
  }

  /** A versioned write after which a successful reconcile goes on at `pc`. */
  function WriteThen(s: State, s1: State, n: string, w: Worker, io: Io, pc: Pc, orElse: Outcome): Outcome {
    if Accepts(s, n, w.mem, io.fault) && io.fault.Done? && n in s1.insts
    then (s1, Some(Synced(s1, n, w).(pc := pc)))
    else (s1, orElse.1)
  }

  function Do(s: State, n: string, w: Worker, io: Io): Outcome {
    match w.pc
    case AddFinalizer => WriteThen(s, SpecUpdate(s, n, w.mem, io.fault), n, w, io, LoadEnv, (s, None))
    case LoadEnv => Load(s, w, io)
    case JobCheck => CheckJob(s, n, w, io)
    case DeleteBare => if io.fault.Done? && n in s.jobs then Mark(s, w, MarkBuilding, Building) else Fail(s, w)
    case MarkBuilding => WriteThen(s, StatusUpdate(s, n, w.mem, io.fault), n, w, io, StartJob, Fail(s, w))
    case StartJob =>  // any failed Get counts as absent
      if io.fault.Done? && JobName(n) in s.jobs then Goto(s, w, DeleteJob) else Goto(s, w, CreateJob)
    case DeleteJob => if io.fault.Done? && JobName(n) in s.jobs then Goto(s, w, WaitGone) else Fail(s, w)
    case WaitGone =>
      if !io.fault.Done? then Fail(s, w) else if JobName(n) in s.jobs then (s, Some(w)) else Goto(s, w, CreateJob)
    case CreateJob => Create(s, n, w, io)
    case Poll(readyAt) => PollJob(s, n, w, readyAt, io)
    case MarkDeploying(added) => (FinishBuild(s, n, w, added, io), None)
    case MarkFailed => (StatusUpdate(s, n, w.mem, io.fault), None)
    case BeginDeploy => WriteThen(s, StatusUpdate(s, n, w.mem, io.fault), n, w, io, Authenticate, Fail(s, w))
    case Authenticate => if io.fault.Done? then Goto(s, w, Put(0)) else Fail(s, w)
    case Put(k) => PutObject(s, n, w, k, io)
    case PublishUrl => WriteThen(s, StatusUpdate(s, n, w.mem, io.fault), n, w, io, Answer, Fail(s, w))
    case Answer =>
      if w.mem.git.pullRequestNumber.None? then (s, None)  // the source dereferences nil and the reconcile dies
      else if io.fault.Done? then Mark(s, w, MarkRunning, Running)
      else Fail(s, w)
    case MarkRunning => (StatusUpdate(s, n, w.mem, io.fault), None)
    case Latest =>
      if w.mem.git.pullRequestNumber.None? || !io.fault.Done? || io.latest == w.mem.git.commitHash then (s, None)
      else (s, Some(w.(pc := WriteHash, mem := w.mem.(git := w.mem.git.(commitHash := io.latest)))))
    case WriteHash =>
      var (s1, o) := WriteThen(s, SpecUpdate(s, n, w.mem, io.fault), n, w, io, MarkPending, (s, None));
      (s1, if o.None? then None else Some(o.value.(mem := o.value.mem.(phase := Pending))))
    case MarkPending => (StatusUpdate(s, n, w.mem, io.fault), None)
    case Del(k) => DeleteObject(s, n, w, k, io)
    case RemoveFinalizer => (SpecUpdate(s, n, w.mem, io.fault), None)
  }

  function SetWorker(s: State, n: string, o: Option<Worker>): State {
    match o
    case Some(w) => s.(workers := s.workers[n := w])
    case None => s.(workers := s.workers - {n})
  }

  const NO_SPEC := Spec("", "", "", "", "", "", "", false)

  function FirstPc(i: Instance): Option<(Pc, Instance)> {
    if i.deleting then if i.finalizer then Some((Del(0), i)) else None
    else if i.finalizer then Some((LoadEnv, i))
    else Some((AddFinalizer, i.(finalizer := true)))
  }

  function BeginReconcile(s: State, n: string): State {
    if n in s.workers || n !in s.insts then s else
      match FirstPc(s.insts[n])
      case Some((pc, mem)) => SetWorker(s, n, Some(Worker(pc, s.insts[n], mem, NO_SPEC)))
      case None => s
  }

  // ---------------------------------------------------------------- the environment reconciler

  function LabelsFor(env: Environment, git: GitSettings): Labels {
    Labels(env.spec.owner, env.uid, env.spec.organization, env.spec.repository, git.Identifier())
  }

  function PullDraft(env: Environment, p: PullRequest): Draft {
    var git := GitSettings(p.headRef, Some(p.number), "");
    Draft(PullRequestName(env.spec, p.number), LabelsFor(env, git), git)
  }

  function BranchDraft(env: Environment, branch: string): Draft {
    var git := GitSettings(branch, None, "");
    Draft(BranchName(env.spec, branch), LabelsFor(env, git), git)
  }

  function PullDrafts(env: Environment, pulls: seq<PullRequest>): seq<Draft> {
    seq(|pulls|, i requires 0 <= i < |pulls| => PullDraft(env, pulls[i]))
  }

  function BranchDrafts(env: Environment, branches: seq<string>): seq<Draft> {
    seq(|branches|, i requires 0 <= i < |branches| => BranchDraft(env, branches[i]))
  }

  type EnvOutcome = (State, Option<EnvWorker>)

  function EnvGoto(s: State, w: EnvWorker, pc: EnvPc): EnvOutcome { (s, Some(w.(pc := pc))) }

  predicate EnvAccepts(s: State, e: string, copy: Environment, fault: Fault) {
    !fault.Rejected? && e in s.envs && s.envs[e].version == copy.version
  }

  function EnvUpdate(s: State, e: string, env: Environment): State {
    if env.deleting && !env.finalizer
    then s.(envs := s.envs - {e}, next := s.next + 1)
    else s.(envs := s.envs[e := env.(version := s.next)], next := s.next + 1)
  }

  function Merged(existing: Instance, d: Draft): Instance {
    existing.(git := d.git, desired := "running")
  }

  function Save(s: State, w: EnvWorker, todo: seq<Draft>, existing: Option<Instance>, io: Io): EnvOutcome
    requires todo != []
  {
    var d := todo[0];
    if existing.Some? && existing.value.desired != "" then
      var s1 := SpecUpdate(s, d.name, Merged(existing.value, d), io.fault);
      if Accepts(s, d.name, existing.value, io.fault) && io.fault.Done? then EnvGoto(s1, w, SaveRead(todo[1..])) else (s1, None)
    else if d.name in s.insts || io.fault.Rejected? then (s, None)
    else
      var s1 := CreateInstance(s, d);
      if io.fault.Done? then EnvGoto(s1, w, SaveRead(todo[1..])) else (s1, None)
  }

  function EnvDo(s: State, e: string, w: EnvWorker, io: Io): EnvOutcome {
    match w.pc
    case EnvAddFinalizer =>
      if EnvAccepts(s, e, w.copy, io.fault) then
        var s1 := EnvUpdate(s, e, w.copy.(finalizer := true));
        if io.fault.Done? && e in s1.envs then (s1, Some(EnvWorker(ListPulls, s1.envs[e]))) else (s1, None)
      else (s, None)
    case ListPulls =>
      if io.fault.Done? then EnvGoto(s, w, ListBranches(PullDrafts(w.copy, io.pulls))) else (s, None)
    case ListBranches(found) =>
      if !w.copy.spec.buildAllBranches then EnvGoto(s, w, SaveRead(found))
      else if io.fault.Done? then EnvGoto(s, w, SaveRead(found + BranchDrafts(w.copy, io.branches)))
      else (s, None)
    case SaveRead(todo) =>
      if todo == [] || !io.fault.Done? then (s, None)
      else EnvGoto(s, w, SaveWrite(todo, if todo[0].name in s.insts then Some(s.insts[todo[0].name]) else None))
    case SaveWrite(todo, existing) => if todo == [] then (s, None) else Save(s, w, todo, existing, io)
    case ListInstances =>
      if !io.fault.Done? then (s, None)
      else if (set n | n in io.names) == s.insts.Keys then EnvGoto(s, w, DeleteNext(io.names))
      else (s, Some(w))
    case DeleteNext(names) =>
      if names == [] then EnvGoto(s, w, EnvRemoveFinalizer)
      else if names[0] !in s.insts || io.fault.Rejected? then (s, None)
      else if io.fault.Lost? then (RequestDelete(s, names[0]), None)
      else EnvGoto(RequestDelete(s, names[0]), w, DeleteNext(names[1..]))
    case EnvRemoveFinalizer =>
      (if EnvAccepts(s, e, w.copy, io.fault) then EnvUpdate(s, e, w.copy.(finalizer := false)) else s, None)
  }

  function SetEnvWorker(s: State, e: string, o: Option<EnvWorker>): State {
    match o
    case Some(w) => s.(envWorkers := s.envWorkers[e := w])
    case None => s.(envWorkers := s.envWorkers - {e})
  }

  function FirstEnvPc(env: Environment): Option<EnvPc> {
    if env.deleting then if env.finalizer then Some(ListInstances) else None
    else if env.finalizer then Some(ListPulls)
    else Some(EnvAddFinalizer)
  }

  function BeginEnvReconcile(s: State, e: string): State {
    if e in s.envWorkers || e !in s.envs then s else
      match FirstEnvPc(s.envs[e])
      case Some(pc) => SetEnvWorker(s, e, Some(EnvWorker(pc, s.envs[e])))
      case None => s
  }

  // ---------------------------------------------------------------- all steps

  function Report(s: State, j: string, job: Job): State
    requires j in s.jobs
  {
    s.(jobs := s.jobs[j := job], pushed := if job.succeeded then s.pushed + {job.destination} else s.pushed)
  }

  function Step(s: State, ev: Event): State {
    match ev
    case Begin(n) => BeginReconcile(s, n)
    case Work(n, io) =>
      if n in s.workers then var (s1, o) := Do(s, n, s.workers[n], io); SetWorker(s1, n, o) else s
    case Crash(n) => SetWorker(s, n, None)
    case EnvBegin(e) => BeginEnvReconcile(s, e)
    case EnvWork(e, io) =>
      if e in s.envWorkers then var (s1, o) := EnvDo(s, e, s.envWorkers[e], io); SetEnvWorker(s1, e, o) else s
    case EnvCrash(e) => SetEnvWorker(s, e, None)
    case HandlerRead(id, n) =>
      if n in s.insts then s.(handlers := s.handlers[id := Handler(n, s.insts[n])]) else s
    case HandlerWrite(id, fault) =>
      if id in s.handlers then
        var h := s.handlers[id];
        StatusUpdate(s, h.name, h.copy.(phase := Pending), fault).(handlers := s.handlers - {id})
      else s
    case CreateEnv(e, spec) =>
      if e in s.envs || spec.name != e then s else
        s.(envs := s.envs[e := Environment(s.nextUid, spec, false, false, s.next)], next := s.next + 1,
           specs := s.specs[s.nextUid := spec], nextUid := s.nextUid + 1)
    case DeleteEnv(e) =>
      if e in s.envs && !s.envs[e].deleting then EnvUpdate(s, e, s.envs[e].(deleting := true)) else s
    case EditEnv(e) =>
      if e in s.envs then EnvUpdate(s, e, s.envs[e]) else s
    case DeleteInstance(n) =>
      if n in s.insts then RequestDelete(s, n) else s
    case EditInstance(n, desired) =>
      if n in s.insts then PutInstance(s, n, s.insts[n].(desired := desired, version := s.next)) else s
    case JobReport(j, active, succeeded, failed) =>
      if j in s.jobs then Report(s, j, s.jobs[j].(active := active, succeeded := succeeded, failed := failed)) else s
    case JobRemoved(j) => s.(jobs := s.jobs - {j})
    case LoseObject(key) => s.(objects := s.objects - {key})
    case Tick(d) => s.(now := s.now + d)
  }

  function Run(s: State, evs: seq<Event>): State {
    if evs == [] then s else Step(Run(s, evs[..|evs| - 1]), evs[|evs| - 1])
  }
}
