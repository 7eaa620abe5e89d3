/** The API server as a running reconcile meets it: every call first lets the rest of the world move. */
module ApiServer {
  import opened Text
  import opened Naming
  import opened Versions
  import opened Cluster
  import opened Safety
  import opened Effects
  import opened Undisturbed

  /** What happens before one call returns, and how that call ends. */
  datatype Turn = Turn(others: seq<Event>, io: Io)

  /** `Down` is a process that has died in the middle. */
  datatype Reply = Fine | Error | Down

  datatype Found<T> = Found(value: T) | NotFound | Failure | Gone

  /** The object a reconcile holds in memory and changes field by field. */
  class Pei {
    var labels: Labels
    var finalizer: bool
    var deleting: bool
    var version: nat
    var git: GitSettings
    var desired: string
    var phase: Phase
    var built: seq<BuiltVersion>
    var url: string

    function Value(): Instance
      reads this
    {
      Instance(labels, finalizer, deleting, version, git, desired, phase, built, url)
    }

    constructor (i: Instance)
      ensures Value() == i
    {
      labels, finalizer, deleting, version := i.labels, i.finalizer, i.deleting, i.version;
      git, desired, phase, built, url := i.git, i.desired, i.phase, i.built, i.url;
    }

    method Decode(i: Instance)
      modifies this
      ensures Value() == i
    {
      labels, finalizer, deleting, version := i.labels, i.finalizer, i.deleting, i.version;
      git, desired, phase, built, url := i.git, i.desired, i.phase, i.built, i.url;
    }
  }

  /** Everyone but the reconcile of instance `n`. */
  predicate OthersOf(n: string, ev: Event) {
    ev != Begin(n) && ev != Crash(n) && !(ev.Work? && ev.n == n)
  }

  lemma OthersLeaveOwn(s: State, ev: Event, n: string)
    requires OthersOf(n, ev)
    ensures OwnOf(Step(s, ev), n) == OwnOf(s, n)
  {
    if n in Step(s, ev).workers {
      WorkersStay(s, ev, n);
    } else if n in s.workers {
      WorkerGone(s, ev, n);
    }
    hide Step;
  }

  /** Everyone but the reconcile of environment `e`. */
  predicate OthersOfEnv(e: string, ev: Event) {
    ev != EnvBegin(e) && ev != EnvCrash(e) && !(ev.EnvWork? && ev.e == e)
  }

  function EnvOwnOf(s: State, e: string): Option<EnvWorker> { if e in s.envWorkers then Some(s.envWorkers[e]) else None }

  lemma OthersLeaveEnvOwn(s: State, ev: Event, e: string)
    requires OthersOfEnv(e, ev)
    ensures EnvOwnOf(Step(s, ev), e) == EnvOwnOf(s, e)
  {
    if e in Step(s, ev).envWorkers {
      EnvWorkersStay(s, ev, e);
    } else if e in s.envWorkers {
      EnvWorkerGone(s, ev, e);
    }
    hide Step;
  }

  /** Where a successful status write leaves the reconcile, and where a refused one does. */
  function AfterStatus(pc: Pc, ok: bool): Option<Pc> {
    match pc
    case MarkBuilding => Some(if ok then StartJob else MarkFailed)
    case BeginDeploy => Some(if ok then Authenticate else MarkFailed)
    case PublishUrl => Some(if ok then Answer else MarkFailed)
    case _ => None
  }

  function AfterSpec(pc: Pc, ok: bool): Option<Pc> {
    match pc
    case AddFinalizer => if ok then Some(LoadEnv) else None
    case WriteHash => if ok then Some(MarkPending) else None
    case _ => None
  }

  function Copied(pc: Pc, i: Instance): Instance {
    if pc.MarkFailed? then i.(phase := Failed) else if pc.MarkPending? then i.(phase := Pending) else i
  }

  predicate Stands(o: Option<Worker>, pc: Option<Pc>, mem: Instance, spec: Spec) {
    match pc
    case None => o.None?
    case Some(p) => o.Some? && o.value.pc == p && o.value.mem == Copied(p, mem) && o.value.spec == spec
  }

  predicate GoesOn(pc: Pc) { pc.MarkBuilding? || pc.BeginDeploy? || pc.PublishUrl? }

  lemma StatusGoesOn(s: State, n: string, w: Worker, io: Io, mem: Instance)
    requires GoesOn(w.pc)
    requires var ok := Accepts(s, n, w.mem, io.fault) && io.fault.Done?;
             mem == if ok then WithStatus(s.insts[n], w.mem, s.next) else w.mem
    ensures Stands(Do(s, n, w, io).1, AfterStatus(w.pc, Accepts(s, n, w.mem, io.fault) && io.fault.Done?), mem, w.spec)
  {
    hide WithStatus;
    if Accepts(s, n, w.mem, io.fault) {
      assert StatusUpdate(s, n, w.mem, io.fault).insts[n] == WithStatus(s.insts[n], w.mem, s.next);
      hide Accepts;
    }
    hide StatusUpdate;
  }

  lemma StatusStands(s: State, n: string, w: Worker, io: Io, mem: Instance)
    requires WritesStatus(w.pc)
    requires var ok := Accepts(s, n, w.mem, io.fault) && io.fault.Done?;
             mem == if ok then WithStatus(s.insts[n], w.mem, s.next) else w.mem
    ensures Stands(Do(s, n, w, io).1, AfterStatus(w.pc, Accepts(s, n, w.mem, io.fault) && io.fault.Done?), mem, w.spec)
  {
    if GoesOn(w.pc) {
      StatusGoesOn(s, n, w, io, mem);
      hide *;
    } else {
      hide StatusUpdate, WithStatus, Accepts, FinishBuild;
    }
  }

  lemma SpecStands(s: State, n: string, w: Worker, io: Io, mem: Instance)
    requires WritesSpec(w.pc) && (w.pc.RemoveFinalizer? || w.mem.finalizer)
    requires var ok := Accepts(s, n, w.mem, io.fault) && io.fault.Done?;
             mem == if ok && w.mem.finalizer then WithSpec(s.insts[n], w.mem, s.next) else w.mem
    ensures Stands(Do(s, n, w, io).1, AfterSpec(w.pc, Accepts(s, n, w.mem, io.fault) && io.fault.Done?), mem, w.spec)
  {
    if Accepts(s, n, w.mem, io.fault) && w.mem.finalizer { SpecWritten(s, n, w, io); }
    hide SpecUpdate, WithSpec, Accepts;
  }

  lemma SpecWritten(s: State, n: string, w: Worker, io: Io)
    requires Accepts(s, n, w.mem, io.fault) && w.mem.finalizer
    ensures SpecUpdate(s, n, w.mem, io.fault).insts == s.insts[n := WithSpec(s.insts[n], w.mem, s.next)]
    ensures WritesSpec(w.pc) ==> Written(s, n, w, io).insts == s.insts[n := WithSpec(s.insts[n], w.mem, s.next)]
  {
  }

  lemma ReadStep(s: State, e: string, io: Io)
    requires e in s.envWorkers
    requires var pc := s.envWorkers[e].pc; pc.SaveRead? || pc.ListPulls? || pc.ListBranches?
    ensures var s' := Step(s, EnvWork(e, io)); s'.insts == s.insts && s'.next == s.next
  {
    hide Step, EnvDo, SetEnvWorker;
    ReadLeaves(s, e, s.envWorkers[e], io);
    EnvStepIs(s, e, io);
    EnvWorkerSet(s, e, EnvDo(s, e, s.envWorkers[e], io).1);
  }

  lemma ReadLeaves(s: State, e: string, w: EnvWorker, io: Io)
    requires w.pc.SaveRead? || w.pc.ListPulls? || w.pc.ListBranches?
    ensures EnvDo(s, e, w, io).0 == s
  {
    hide PullDrafts, BranchDrafts;
  }

  /** What an update of an environment writes, and where it goes on. */
  lemma EnvUpdateMoves(s: State, e: string, w: EnvWorker, pe: Environment, io: Io)
    requires (w.pc.EnvAddFinalizer? && pe == w.copy.(finalizer := true)) || (w.pc.EnvRemoveFinalizer? && pe == w.copy.(finalizer := false))
    ensures var ok := EnvAccepts(s, e, pe, io.fault); var envs := EnvsAfter(s, e, w, io).envs;
            && InstancesAfter(s, w, io).insts == s.insts
            && (!ok ==> envs == s.envs)
            && (ok && pe.deleting && !pe.finalizer ==> envs == s.envs - {e})
            && (ok && pe.finalizer ==> envs == s.envs[e := pe.(version := s.next)])
            && (io.fault.Done? && e in s.envs && s.envs[e] == w.copy ==> ok)
            && EnvDo(s, e, w, io).1 ==
               if ok && io.fault.Done? && w.pc.EnvAddFinalizer? then Some(EnvWorker(ListPulls, pe.(version := s.next))) else None
  {
    EnvUpdateCases(s, e, pe);
    hide Cluster.EnvUpdate;
    if w.pc.EnvAddFinalizer? {
      FinalizerMoves(s, e, w, io);
      hide EnvDo;
    }
  }

  lemma EnvUpdateCases(s: State, e: string, pe: Environment)
    ensures pe.deleting && !pe.finalizer ==> Cluster.EnvUpdate(s, e, pe).envs == s.envs - {e}
    ensures pe.finalizer ==> Cluster.EnvUpdate(s, e, pe).envs == s.envs[e := pe.(version := s.next)]
  {
  }

  lemma FinalizerMoves(s: State, e: string, w: EnvWorker, io: Io)
    requires w.pc.EnvAddFinalizer?
    ensures EnvDo(s, e, w, io).1 ==
            if EnvAccepts(s, e, w.copy, io.fault) && io.fault.Done?
            then Some(EnvWorker(ListPulls, w.copy.(finalizer := true, version := s.next))) else None
  {
    EnvUpdateCases(s, e, w.copy.(finalizer := true));
    hide Cluster.EnvUpdate, EnvAccepts;
  }

  /** What a save writes, and where it goes on. */
  lemma WriteStep(s: State, e: string, io: Io)
    requires e in s.envWorkers && s.envWorkers[e].pc.SaveWrite? && s.envWorkers[e].pc.todo != []
    ensures var w := s.envWorkers[e]; var d := w.pc.todo[0]; var s' := Step(s, EnvWork(e, io));
            var next := Some(w.(pc := SaveRead(w.pc.todo[1..])));
            if Updates(w) then
              var s1 := SpecUpdate(s, d.name, Merged(w.pc.existing.value, d), io.fault);
              && s'.insts == s1.insts && s'.next == s1.next
              && EnvDo(s, e, w, io).1 == if Accepts(s, d.name, w.pc.existing.value, io.fault) && io.fault.Done? then next else None
            else
              var refused := d.name in s.insts || io.fault.Rejected?;
              var s1 := if refused then s else CreateInstance(s, d);
              && s'.insts == s1.insts && s'.next == s1.next
              && EnvDo(s, e, w, io).1 == if !refused && io.fault.Done? then next else None
  {
    hide Step, EnvDo, SetEnvWorker, SpecUpdate, Merged, Accepts, Cluster.CreateInstance;
    var w := s.envWorkers[e];
    EnvStepIs(s, e, io);
    SaveIs(s, e, w, io);
    var o := EnvDo(s, e, w, io);
    EnvWorkerSet(o.0, e, o.1);
  }

  lemma SaveIs(s: State, e: string, w: EnvWorker, io: Io)
    requires w.pc.SaveWrite? && w.pc.todo != []
    ensures EnvDo(s, e, w, io) == Save(s, w, w.pc.todo, w.pc.existing, io)
  {
    hide Save;
  }

  /** `items` lists the entries of `m`, in some order. */
  predicate Lists<T(==)>(items: seq<(string, T)>, m: map<string, T>) {
    && (forall p | p in items :: p.0 in m && m[p.0] == p.1)
    && (forall k | k in m :: (k, m[k]) in items)
    && forall i, j | 0 <= i < j < |items| :: items[i].0 != items[j].0
  }

  method Enumerate<T(==)>(m: map<string, T>) returns (items: seq<(string, T)>)
    ensures Lists(items, m)
  {
    items := [];
    var left := m.Keys;
    while left != {}
      invariant left <= m.Keys
      invariant forall p | p in items :: p.0 in m && m[p.0] == p.1
      invariant forall k | k in m && k !in left :: (k, m[k]) in items
      invariant forall i, j | 0 <= i < j < |items| :: items[i].0 != items[j].0
      invariant forall p | p in items :: p.0 !in left
      decreases |left|
    {
      var k :| k in left;
      items, left := items + [(k, m[k])], left - {k};
    }
  }

  predicate Is(o: Option<Worker>, pc: Pc, mem: Instance, spec: Spec) {
    o.Some? && o.value.pc == pc && o.value.mem == mem && o.value.spec == spec
  }

  /** Where putting object `k` leaves the reconcile: errors of the proxy's objects are only logged. */
  predicate HasPut(o: Option<Worker>, k: Slot, ok: bool, mem: Instance, spec: Spec) {
    if ok && k < 5 then Is(o, Put(k + 1), mem, spec)
    else if ok then Is(o, PublishUrl, mem.(url := PublicUrl(spec, mem)), spec)
    else if 2 <= k <= 4 then Is(o, Put(5), mem, spec)
    else Is(o, MarkFailed, mem.(phase := Failed), spec)
  }

  lemma CreateGoesOn(s: State, n: string, w: Worker, io: Io)
    requires w.pc == CreateJob
    ensures var ok := JobName(n) !in s.jobs && io.fault.Done?; var o := Do(s, n, w, io).1;
            if ok then Is(o, Poll(s.now + 10 * SECOND), w.mem, w.spec) else Is(o, MarkFailed, w.mem.(phase := Failed), w.spec)
  {
    hide Image;
  }

  lemma DeleteGoesOn(s: State, n: string, w: Worker, k: Slot, io: Io)
    requires w.pc == Del(k)
    ensures var ok := io.fault.Done? && SlotKey(k, n) in s.objects; var o := Do(s, n, w, io).1;
            match AfterDelete(k, ok) {
              case Some(next) => Is(o, Del(next), w.mem, w.spec)
              case None => Is(o, RemoveFinalizer, w.mem.(finalizer := false), w.spec)
            }
  {
    hide SlotKey;
  }

  lemma PutGoesOn(s: State, n: string, w: Worker, k: Slot, io: Io)
    requires w.pc == Put(k)
    ensures HasPut(Do(s, n, w, io).1, k, io.fault.Done?, w.mem, w.spec)
  {
    hide SlotKey, SlotObject, PublicUrl, Apply;
  }

  /** Nobody else acts before the next `k` calls return. */
  predicate Alone(script: seq<Turn>, k: nat) {
    k <= |script| && forall i | 0 <= i < k :: script[i].others == []
  }

  /** Moreover, all of them succeed if they can. */
  predicate Calm(script: seq<Turn>, k: nat) {
    Alone(script, k) && forall i | 0 <= i < k :: script[i].io.fault.Done?
  }

  /** Positions a reconcile passes before it looks for the job of an earlier build. */
  predicate Early(pc: Pc) {
    pc.AddFinalizer? || pc.LoadEnv? || pc.JobCheck? || pc.DeleteBare? || pc.MarkBuilding? || pc.StartJob?
  }

  /** If there was no such job when the reconcile began, there is none before it looks. */
  predicate NoOldJob(s0: State, s: State, n: string) {
    JobName(n) !in s0.jobs && n in s.workers && Early(s.workers[n].pc) ==> JobName(n) !in s.jobs
  }

  function OtherObjects(objects: map<ObjectKey, ClusterObject>, n: string): map<ObjectKey, ClusterObject> {
    map key | key in objects && !KeyOf(key, n) :: objects[key]
  }

  /** No environment, no other instance and no object of another name has changed. */
  predicate Elsewhere(s0: State, s: State, n: string) {
    && s.envs == s0.envs && s.specs == s0.specs && s.insts - {n} == s0.insts - {n}
    && OtherObjects(s.objects, n) == OtherObjects(s0.objects, n)
  }

  lemma OtherPut(objects: map<ObjectKey, ClusterObject>, n: string, k: Slot, o: ClusterObject)
    ensures OtherObjects(objects[SlotKey(k, n) := o], n) == OtherObjects(objects, n)
    ensures OtherObjects(objects - {SlotKey(k, n)}, n) == OtherObjects(objects, n)
  {
    assert KeyOf(SlotKey(k, n), n);
    hide SlotKey, KeyOf;
  }

  lemma WrittenOthers(s: State, n: string, w: Worker, io: Io)
    ensures Written(s, n, w, io).insts - {n} == s.insts - {n}
    ensures OtherObjects(ObjectsAfter(s, n, w, io), n) == OtherObjects(s.objects, n)
  {
    WrittenCases(s, n, w, io);
    SpecCases(s, n, w.mem, io.fault);
    hide Written, SpecUpdate, WithSpec, WithStatus, OtherObjects, SlotKey, SlotObject;
    if w.pc.Put? { OtherPut(s.objects, n, w.pc.k, SlotObject(w.pc.k, w.spec, w.mem)); }
    if w.pc.Del? { OtherPut(s.objects, n, w.pc.k, Endpoint); }
  }

  /** A quiet step changes nothing elsewhere. */
  lemma QuietElsewhere(s0: State, s: State, n: string, h: string, ev: Event)
    requires Elsewhere(s0, s, n) && n in s.workers && Quiet(s, n, h, ev)
    ensures Elsewhere(s0, Step(s, ev), n)
  {
    hide Do, EnvDo, OtherObjects, Written, ObjectsAfter, RecordedAfter;
    if ev.Work? {
      WorkEffect(s, n, ev.io);
      WrittenOthers(s, n, s.workers[n], ev.io);
      hide Step;
    }
  }

  /** `s` is an undisturbed reconcile of `n` away from `s0`. */
  ghost predicate OnItsWay(s0: State, s: State, n: string, h: string) {
    Idle(s0, n) && !EndsWith(n, PROXY_SUFFIX) && QuietInv(s0, s, n, h) && Elsewhere(s0, s, n) && NoOldJob(s0, s, n)
  }

  lemma EarlyStays(s: State, n: string, w: Worker, io: Io)
    ensures var o := Do(s, n, w, io).1; o.Some? && Early(o.value.pc) ==> Early(w.pc)
  {
    hide StatusUpdate, SpecUpdate, Accepts, UpdateResult, SlotKey, SlotObject, HasTag, FinishBuild, Apply;
  }

  lemma WorkNoOldJob(s0: State, s: State, n: string, io: Io)
    requires NoOldJob(s0, s, n) && n in s.workers
    ensures NoOldJob(s0, Step(s, Work(n, io)), n)
  {
    hide Step, Do, Written, ObjectsAfter, RecordedAfter;
    WorkEffect(s, n, io);
    EarlyStays(s, n, s.workers[n], io);
  }

  lemma QuietNoOldJob(s0: State, s: State, n: string, h: string, ev: Event)
    requires NoOldJob(s0, s, n) && n in s.workers && Quiet(s, n, h, ev)
    ensures NoOldJob(s0, Step(s, ev), n)
  {
    hide Do, EnvDo;
    if ev.Work? {
      WorkNoOldJob(s0, s, n, ev.io);
      hide Step;
    }
  }

  lemma RunGoesOn(now: nat, trace: seq<Event>, ev: Event)
    ensures Run(Init(now), trace + [ev]) == Step(Run(Init(now), trace), ev)
  {
    hide Step, Init;
    assert (trace + [ev])[..|trace|] == trace;
  }

  lemma EnvThere(s0: State, s: State, n: string, h: string)
    requires Idle(s0, n) && QuietInv(s0, s, n, h) && Elsewhere(s0, s, n)
    ensures n in s.insts && n in s0.insts && s0.insts[n].git.pullRequestNumber.Some?
    ensures HasEnv(s, s.insts[n].labels.environment) && HasEnv(s, s0.insts[n].labels.environment)
  {
    hide Reached, Accomplished;
  }

  lemma WayBegins(now: nat, trace: seq<Event>, n: string, h: string)
    requires Idle(Run(Init(now), trace), n)
    ensures var s := Run(Init(now), trace); OnItsWay(s, Step(s, Begin(n)), n, h) && n in Step(s, Begin(n)).workers
  {
    hide QuietInv, Inv, Run, Do, EnvDo, Init, OtherObjects;
    RunOk(now, trace);
    NumberedIsNoProxy(Run(Init(now), trace), n);
    BeginGoes(Run(Init(now), trace), n, h);
    BeginIs(Run(Init(now), trace), n);
  }

  lemma WayGoesOn(now: nat, trace: seq<Event>, s0: State, n: string, h: string, ev: Event)
    requires var s := Run(Init(now), trace); OnItsWay(s0, s, n, h) && n in s.workers && Quiet(s, n, h, ev)
    ensures OnItsWay(s0, Step(Run(Init(now), trace), ev), n, h)
  {
    hide QuietInv, Step, Inv, Run, Idle, Quiet, Elsewhere;
    RunOk(now, trace);
    EnvThere(s0, Run(Init(now), trace), n, h);
    QuietElsewhere(s0, Run(Init(now), trace), n, h, ev);
    QuietStepGoes(s0, Run(Init(now), trace), n, h, ev);
    QuietNoOldJob(s0, Run(Init(now), trace), n, h, ev);
  }

  // ---------------------------------------------------------------- scripts that let a reconcile get through

  /** Time passing, and reports about the build job of `n` other than its failure. */
  predicate Friendly(n: string, ev: Event) {
    match ev
    case Tick(_) => true
    case JobReport(j, _, succeeded, failed) => j == JobName(n) && (failed ==> succeeded)
    case _ => false
  }

  predicate AllFriendly(n: string, evs: seq<Event>) { forall i | 0 <= i < |evs| :: Friendly(n, evs[i]) }

  predicate FriendlyTurn(t: Turn, n: string, h: string) {
    t.io.fault.Done? && t.io.latest == h && AllFriendly(n, t.others)
  }

  function Elapsed(evs: seq<Event>): nat {
    if evs == [] then 0
    else var last := evs[|evs| - 1]; Elapsed(evs[..|evs| - 1]) + if last.Tick? then last.d else 0
  }

  /** The last report says that the job has succeeded. */
  predicate EndsInSuccess(evs: seq<Event>) {
    evs != [] && var last := evs[|evs| - 1]; if last.JobReport? then last.succeeded else EndsInSuccess(evs[..|evs| - 1])
  }

  predicate Helpful(t: Turn) { Elapsed(t.others) >= 10 * SECOND && EndsInSuccess(t.others) }

  const LAST := 30

  /** Every call is answered, with `h` as the latest commit; nobody acts but the clock and the build job of `n`, in
      whatever order; and in the end, for the last turns, time passes and the job is reported as succeeded. */
  predicate FriendlyScript(script: seq<Turn>, n: string, h: string) {
    && (forall t | t in script :: FriendlyTurn(t, n, h))
    && forall i | 0 <= i < |script| && |script| - LAST <= i :: Helpful(script[i])
  }

  lemma FriendlyRest(script: seq<Turn>, n: string, h: string)
    requires FriendlyScript(script, n, h) && script != []
    ensures FriendlyScript(script[1..], n, h) && FriendlyTurn(script[0], n, h) && (|script| <= LAST ==> Helpful(script[0]))
  {
    hide FriendlyTurn, Helpful;
    forall i | 0 <= i < |script[1..]| && |script[1..]| - LAST <= i ensures Helpful(script[1..][i]) {
      assert script[1..][i] == script[i + 1];
    }
  }

  /** What a friendly event leaves alone. */
  predicate SameCluster(s: State, t: State) {
    && t.insts == s.insts && t.envs == s.envs && t.specs == s.specs && t.objects == s.objects && t.builds == s.builds
    && t.workers == s.workers && t.jobs.Keys == s.jobs.Keys
  }

  lemma FriendlyStep(s: State, n: string, h: string, ev: Event)
    requires Friendly(n, ev)
    ensures var t := Step(s, ev);
            && SameCluster(s, t) && OthersOf(n, ev) && Quiet(s, n, h, ev)
            && t.now == s.now + (if ev.Tick? then ev.d else 0)
            && (JobName(n) in s.jobs ==>
                 t.jobs[JobName(n)].succeeded == if ev.JobReport? then ev.succeeded else s.jobs[JobName(n)].succeeded)
  {
    hide Do, EnvDo;
    if ev.JobReport? && ev.j !in s.jobs {
      assert Step(s, ev) == s;
    }
  }

  lemma CrashEnds(s: State, n: string)
    ensures n !in Step(s, Crash(n)).workers && Step(s, Crash(n)).now == s.now
  {
    hide Do, EnvDo;
  }

  lemma SameLabels(w: Worker)
    requires AtPc(w)
    ensures w.mem.labels == w.base.labels
  {
  }

  lemma StillIdle(s: State, t: State, n: string)
    requires SameCluster(s, t) && Idle(s, n)
    ensures Idle(t, n) && t.insts[n] == s.insts[n]
  {
  }

  lemma BeginStands(s: State, n: string)
    requires n !in s.workers && n in s.insts
    ensures match FirstPc(s.insts[n]) {
              case Some((pc, mem)) => Is(OwnOf(Step(s, Begin(n)), n), pc, mem, NO_SPEC)
              case None => n !in Step(s, Begin(n)).workers
            }
  {
    hide Do, EnvDo;
  }

  lemma LinkedBase(w: Worker)
    requires AtPc(w)
    ensures w.mem.version == w.base.version
  {
  }

  lemma StatusWritten(s: State, n: string, w: Worker, io: Io)
    requires WritesStatus(w.pc)
    ensures Accepts(s, n, w.mem, io.fault) ==>
              var insts := Written(s, n, w, io).insts; n in insts && insts[n] == WithStatus(s.insts[n], w.mem, s.next)
  {
    hide WithStatus;
  }

  lemma WithSpecFinalizer(stored: Instance, mem: Instance, version: nat)
    ensures WithSpec(stored, mem, version).finalizer == mem.finalizer
  {
  }

  /** An accepted status write hands back what was sent, with a new version and whole seconds. */
  lemma WithStatusIs(w: Worker, version: nat)
    requires AtPc(w) && WritesStatus(w.pc)
    ensures WithStatus(w.base, w.mem, version) == w.mem.(version := version, built := StoredAll(w.mem.built))
  {
    hide StoredAll, UpdateResult;
  }

  /** The server watches one instance, whose pull request stays at commit `latest` while it is undisturbed. */
  class Server {
    var st: State
    var script: seq<Turn>
    ghost const start: nat
    ghost var trace: seq<Event>
    ghost var subject: string
    ghost var latest: string
    ghost var s0: State           // when the last reconcile of `subject` began
    ghost var undisturbed: bool   // whether only quiet events have happened since

    /** All that has happened so far is one run of the machine. */
    ghost predicate Valid()
      reads `st, `trace, `subject, `latest, `s0, `undisturbed
    {
      st == Run(Init(start), trace) && (undisturbed ==> OnItsWay(s0, st, subject, latest))
    }

    function Own(n: string): Option<Worker>
      reads this
    {
      OwnOf(st, n)
    }

    /** The reconcile of `n` is about to make the call `pc` with the copy `mem`. */
    predicate At(n: string, pc: Pc, mem: Instance, spec: Spec)
      reads this
    {
      Is(Own(n), pc, mem, spec)
    }

    constructor (now: nat, script: seq<Turn>)
      ensures Valid() && st == Init(now) && this.script == script
    {
      st, start, trace, s0, undisturbed := Init(now), now, [], Init(now), false;
      this.script, subject, latest := script, "", "";
    }

    /** The reconcile of `n` is undisturbed and has a friendly script of at least `k` turns ahead of it. */
    ghost predicate Smooth(n: string, k: int)
      reads this
    {
      n == subject && undisturbed && FriendlyScript(script, n, latest) && k <= |script|
    }

    ghost method Watch(n: string, h: string)
      requires Valid()
      modifies `subject, `latest, `undisturbed
      ensures Valid() && subject == n && latest == h && !undisturbed
    {
      subject, latest, undisturbed := n, h, false;
    }

    /** Where an undisturbed reconcile stands. */
    lemma OnTheWay(n: string)
      requires Valid() && undisturbed && n == subject && n in st.workers
      ensures var w := st.workers[n];
              && n in st.insts && n in s0.insts && s0.insts[n].labels.environment in s0.specs
              && AtPc(w) && w.base == st.insts[n] && (Loaded(w.pc) ==> w.spec == SpecOf(s0, n))
              && Reached(ViewOf(s0, n), ViewOf(st, n), n, latest, SpecOf(s0, n), w.pc, w.mem)
              && SameIdentity(s0.insts[n], st.insts[n]) && s0.insts[n].git.pullRequestNumber.Some?
              && HasEnv(st, w.mem.labels.environment) && NoOldJob(s0, st, n) && n !in st.jobs
    {
      hide Run, Reached, AtPc, NoOldJob, Inv;
      RunOk(start, trace);
      EnvThere(s0, st, n, latest);
      var io := Io(Done, "", latest, [], [], [], []);
      assert Going(s0, st, n, latest, io);
      GoingFacts(s0, st, n, latest, io);
      BareJobMisses(s0, st, n, latest, io);
      SameLabels(st.workers[n]);
    }

    method Happen(ev: Event)
      requires Valid()
      modifies `st, `trace, `undisturbed
      ensures Valid() && st == Step(old(st), ev) && trace == old(trace) + [ev]
      ensures undisturbed == (old(undisturbed) && subject in old(st).workers && Quiet(old(st), subject, latest, ev))
    {
      hide OnItsWay, Step, Init, Run, Quiet;
      RunGoesOn(start, trace, ev);
      undisturbed := undisturbed && subject in st.workers && Quiet(st, subject, latest, ev);
      if undisturbed { WayGoesOn(start, trace, s0, subject, latest, ev); }
      st := Step(st, ev);
      trace := trace + [ev];
    }

    method BeginWork(n: string)
      requires Valid()
      modifies `st, `trace, `undisturbed, `s0
      ensures Valid() && st == Step(old(st), Begin(n)) && trace == old(trace) + [Begin(n)]
      ensures n == subject && Idle(old(st), n) ==> undisturbed && s0 == old(st)
    {
      hide OnItsWay, Step, Init, Run, Idle;
      RunGoesOn(start, trace, Begin(n));
      undisturbed := n == subject && Idle(st, n);
      if undisturbed {
        WayBegins(start, trace, n, latest);
        s0 := st;
      }
      st := Step(st, Begin(n));
      trace := trace + [Begin(n)];
    }

    /** Everyone else moves. */
    method LetOthersMove(n: string, others: seq<Event>)
      requires Valid()
      modifies `st, `trace, `undisturbed
      ensures Valid() && Own(n) == old(Own(n)) && st.now >= old(st.now) && (others == [] ==> st == old(st))
      ensures AllFriendly(n, others) ==>
                && SameCluster(old(st), st) && st.now == old(st.now) + Elapsed(others)
                && (n == subject && old(undisturbed) && n in old(st.workers) ==> undisturbed)
                && (JobName(n) in st.jobs && EndsInSuccess(others) ==> st.jobs[JobName(n)].succeeded)
    {
      hide Server.Valid, Step, Run, Init, Quiet, Friendly;
      ghost var friendly := AllFriendly(n, others);
      for i := 0 to |others|
        invariant Valid() && Own(n) == old(Own(n)) && st.now >= old(st.now) && (i == 0 ==> st == old(st))
        invariant friendly ==>
                    && SameCluster(old(st), st) && st.now == old(st.now) + Elapsed(others[..i])
                    && (n == subject && old(undisturbed) && n in old(st.workers) ==> undisturbed)
                    && (JobName(n) in st.jobs && EndsInSuccess(others[..i]) ==> st.jobs[JobName(n)].succeeded)
      {
        assert others[..i + 1][..i] == others[..i];
        if friendly { FriendlyStep(st, n, latest, others[i]); }
        if OthersOf(n, others[i]) {
          OthersLeaveOwn(st, others[i], n);
          TimeMoves(st, others[i]);
          Happen(others[i]);
        }
      }
      assert others[..|others|] == others;
    }

    /** One turn of everyone else. When the script is over, the process making the call dies. */
    method Wait(n: string) returns (alive: bool, io: Io)
      requires Valid()
      modifies `st, `script, `trace, `undisturbed
      ensures Valid() && st.now >= old(st.now)
      ensures alive ==> Own(n) == old(Own(n)) && |script| < |old(script)|
      ensures !alive ==> n !in st.workers && |script| <= |old(script)|
      ensures Calm(old(script), 1) ==> alive && st == old(st) && io.fault.Done? && script == old(script)[1..]
      ensures old(script) != [] && FriendlyScript(old(script), n, latest) ==>
                && alive && script == old(script)[1..] && FriendlyScript(script, n, latest)
                && io.fault.Done? && io.latest == latest && SameCluster(old(st), st)
                && (n == subject && old(undisturbed) && n in old(st.workers) ==> undisturbed)
                && (|old(script)| <= LAST ==> Helped(n, old(st)))
    {
      hide Server.Valid, Run, Init, SameCluster, Elapsed, EndsInSuccess, AllFriendly;
      if script != [] && FriendlyScript(script, n, latest) { FriendlyRest(script, n, latest); }
      hide FriendlyScript, Step;
      if script == [] {
        CrashEnds(st, n);
        Happen(Crash(n));
        return false, Io(Done, "", "", [], [], [], []);
      }
      var turn := script[0];
      script := script[1..];
      LetOthersMove(n, turn.others);
      return true, turn.io;
    }

    /** Time has passed, and the build job, if there is one, has succeeded. */
    predicate Helped(n: string, s: State)
      reads this
    {
      st.now >= s.now + 10 * SECOND && (JobName(n) in st.jobs ==> st.jobs[JobName(n)].succeeded)
    }

    /** One step of the reconcile of `n`. */
    method Perform(n: string, io: Io)
      requires Valid() && n in st.workers
      modifies `st, `trace, `undisturbed
      ensures Valid() && Own(n) == Do(old(st), n, old(st.workers[n]), io).1
      ensures st.insts == Written(old(st), n, old(st.workers[n]), io).insts
      ensures st.objects == ObjectsAfter(old(st), n, old(st.workers[n]), io)
      ensures st.envs == old(st.envs) && st.now == old(st.now)
      ensures n == subject && old(undisturbed) && io.fault.Done? && io.latest == latest ==> undisturbed
    {
      hide Step, Do, Written, ObjectsAfter, RecordedAfter, Run, OnItsWay;
      WorkEffect(st, n, io);
      Happen(Work(n, io));
    }

    /** Notes how the reconcile of `n` goes on after an answer; nothing in the store changes. */
    method Advance(n: string, io: Io)
      requires Valid() && n in st.workers && Reads(st.workers[n].pc)
      modifies `st, `trace, `undisturbed
      ensures Valid() && Own(n) == Do(old(st), n, old(st.workers[n]), io).1
      ensures st.insts == old(st.insts) && st.envs == old(st.envs) && st.objects == old(st.objects) && st.now == old(st.now)
      ensures n == subject && old(undisturbed) && io.fault.Done? && io.latest == latest ==> undisturbed
    {
      hide Step, Do, Run, OnItsWay;
      Perform(n, io);
    }

    // -------------------------------------------------------------- the instance itself

    method Get(n: string) returns (r: Found<Pei>)
      requires Valid() && n !in st.workers
      modifies `st, `script, `trace, `undisturbed, `s0
      ensures Valid() && |script| <= |old(script)|
      ensures !r.Found? ==> n !in st.workers
      ensures r.Found? ==>
                && fresh(r.value)
                && var i := r.value.Value();
                   match FirstPc(i) {
                     case Some((pc, mem)) => At(n, pc, mem, NO_SPEC)
                     case None => n !in st.workers
                   }
      ensures n == subject && old(script) != [] && FriendlyScript(old(script), n, latest) && Idle(old(st), n) ==>
                && r.Found? && r.value.Value() == old(st.insts[n]) && Smooth(n, |old(script)| - 1) && SameCluster(old(st), s0)
    {
      hide Run, Step, Server.Valid, Calm, FriendlyScript;
      ghost var friendly := n == subject && script != [] && FriendlyScript(script, n, latest) && Idle(st, n);
      var alive, io := Wait(n);
      if !alive { return Gone; }
      if !io.fault.Done? { return Failure; }
      if n !in st.insts { return NotFound; }
      if friendly { StillIdle(old(st), st, n); }
      var pei := new Pei(st.insts[n]);
      BeginStands(st, n);
      BeginWork(n);
      r := Found(pei);
    }

    /** Update: metadata and spec, refused on a stale version. */
    method Update(n: string, pei: Pei) returns (r: Reply)
      requires Valid() && n in st.workers && WritesSpec(st.workers[n].pc) && st.workers[n].mem == pei.Value()
      requires st.workers[n].pc.RemoveFinalizer? || pei.finalizer
      modifies `st, `script, `trace, `undisturbed, pei
      ensures Valid() && |script| <= |old(script)|
      ensures r.Down? ==> n !in st.workers
      ensures pei.finalizer == old(pei.finalizer)
      ensures !r.Down? ==> Stands(Own(n), AfterSpec(old(st.workers[n].pc), r.Fine?), pei.Value(), old(st.workers[n].spec))
      ensures old(Smooth(n, 1)) ==> r.Fine? && Smooth(n, |old(script)| - 1)
    {
      hide Run, Step, Do, Server.Valid, Calm, FriendlyScript, SpecUpdate, WithSpec, Stands, OnItsWay, Reached, AtPc;
      var alive, io := Wait(n);
      if !alive { return Down; }
      ghost var w := st.workers[n];
      ghost var s := st;
      r := if Accepts(st, n, pei.Value(), io.fault) && io.fault.Done? then Fine else Error;
      if old(Smooth(n, 1)) { SpecIsAccepted(n, io); }
      SpecStands(s, n, w, io, if r.Fine? && pei.finalizer then WithSpec(s.insts[n], w.mem, s.next) else w.mem);
      if r.Fine? && pei.finalizer { SpecWritten(s, n, w, io); }
      if r.Fine? { WithSpecFinalizer(s.insts[n], w.mem, s.next); }
      Perform(n, io);
      if r.Fine? && pei.finalizer { pei.Decode(st.insts[n]); }
    }

    lemma SpecIsAccepted(n: string, io: Io)
      requires Valid() && undisturbed && n == subject && n in st.workers && WritesSpec(st.workers[n].pc) && io.fault.Done?
      ensures Accepts(st, n, st.workers[n].mem, io.fault)
    {
      hide Server.Valid;
      OnTheWay(n);
    }

    /** Status().Update: the status alone, refused on a stale version. */
    method StatusUpdate(n: string, pei: Pei) returns (r: Reply)
      requires Valid() && n in st.workers && WritesStatus(st.workers[n].pc) && st.workers[n].mem == pei.Value()
      modifies `st, `script, `trace, `undisturbed, pei
      ensures Valid() && |script| <= |old(script)|
      ensures r.Down? ==> n !in st.workers
      ensures !r.Down? ==> Stands(Own(n), AfterStatus(old(st.workers[n].pc), r.Fine?), pei.Value(), old(st.workers[n].spec))
      ensures old(Smooth(n, 1)) ==> r.Fine? && Smooth(n, |old(script)| - 1)
      ensures !r.Fine? ==> pei.Value() == old(pei.Value())
      ensures r.Fine? ==> pei.Value() == old(pei.Value()).(version := pei.version, built := StoredAll(old(pei.built)))
    {
      hide Run, Step, Do, Server.Valid, Calm, FriendlyScript, Cluster.StatusUpdate, WithStatus, StoredAll, Stands, OnItsWay, Reached, AtPc;
      var alive, io := Wait(n);
      if !alive { return Down; }
      ghost var w := st.workers[n];
      ghost var s := st;
      r := if Accepts(st, n, pei.Value(), io.fault) && io.fault.Done? then Fine else Error;
      if old(Smooth(n, 1)) { StatusIsAccepted(n, io); }
      StatusStands(s, n, w, io, if r.Fine? then WithStatus(s.insts[n], w.mem, s.next) else w.mem);
      if r.Fine? { AcceptedCopy(n, io); }
      StatusWritten(s, n, w, io);
      Perform(n, io);
      if r.Fine? { pei.Decode(st.insts[n]); }
    }

    lemma AcceptedCopy(n: string, io: Io)
      requires Valid() && n in st.workers && WritesStatus(st.workers[n].pc) && Accepts(st, n, st.workers[n].mem, io.fault)
      ensures var mem := st.workers[n].mem;
              WithStatus(st.insts[n], mem, st.next) == mem.(version := st.next, built := StoredAll(mem.built))
    {
      hide Run, Inv, OnItsWay, WithStatus, StoredAll;
      RunOk(start, trace);
      WorkerFacts(st, n);
      LinkedBase(st.workers[n]);
      WithStatusIs(st.workers[n], st.next);
    }

    lemma StatusIsAccepted(n: string, io: Io)
      requires Valid() && undisturbed && n == subject && n in st.workers && WritesStatus(st.workers[n].pc) && io.fault.Done?
      ensures Accepts(st, n, st.workers[n].mem, io.fault)
    {
      hide Server.Valid;
      OnTheWay(n);
    }

    // -------------------------------------------------------------- environments and jobs

    method ListEnvironments(n: string) returns (r: Found<seq<(string, Environment)>>, io: Io)
      requires Valid() && n in st.workers
      modifies `st, `script, `trace, `undisturbed
      ensures Valid() && |script| <= |old(script)|
      ensures r.Gone? ==> n !in st.workers
      ensures !r.Gone? ==> Own(n) == old(Own(n)) && !r.NotFound? && (r.Failure? <==> !io.fault.Done?)
      ensures r.Found? ==> Lists(r.value, st.envs)
      ensures old(Smooth(n, 1)) ==> r.Found? && io.latest == latest && Smooth(n, |old(script)| - 1)
    {
      hide Run, Step, Server.Valid, Calm, FriendlyScript, Lists;
      var alive;
      alive, io := Wait(n);
      if !alive { return Gone, io; }
      if !io.fault.Done? { return Failure, io; }
      var items := Enumerate(st.envs);
      return Found(items), io;
    }

    method GetJob(n: string, name: string) returns (r: Found<Job>, io: Io)
      requires Valid() && n in st.workers
      modifies `st, `script, `trace, `undisturbed
      ensures Valid() && st.now >= old(st.now) && |script| <= |old(script)|
      ensures r.Gone? ==> n !in st.workers
      ensures !r.Gone? ==> Own(n) == old(Own(n)) && |script| < |old(script)|
      ensures !r.Gone? ==>
                r == if !io.fault.Done? then Failure else if name in st.jobs then Found(st.jobs[name]) else NotFound
      ensures old(Smooth(n, 1)) ==>
                && !r.Gone? && !r.Failure? && io.fault.Done? && io.latest == latest && Smooth(n, |old(script)| - 1)
                && (|old(script)| <= LAST ==> Helped(n, old(st)))
    {
      hide Run, Step, Server.Valid, Calm, FriendlyScript, Helped;
      var alive;
      alive, io := Wait(n);
      if !alive { return Gone, io; }
      if !io.fault.Done? { return Failure, io; }
      if name !in st.jobs { return NotFound, io; }
      return Found(st.jobs[name]), io;
    }

    /** Asks for a job to be deleted; it disappears some time later. */
    method DeleteJob(n: string, name: string) returns (r: Reply, io: Io)
      requires Valid() && n in st.workers
      modifies `st, `script, `trace, `undisturbed
      ensures Valid() && |script| <= |old(script)|
      ensures r.Down? ==> n !in st.workers
      ensures !r.Down? ==> Own(n) == old(Own(n)) && (r.Fine? <==> io.fault.Done? && name in st.jobs)
    {
      hide Run, Step, Server.Valid, Calm, FriendlyScript;
      var alive;
      alive, io := Wait(n);
      if !alive { return Down, io; }
      return if io.fault.Done? && name in st.jobs then Fine else Error, io;
    }

    method CreateJob(n: string, name: string, destination: string) returns (r: Reply)
      requires Valid() && n in st.workers && st.workers[n].pc == Pc.CreateJob
      requires name == JobName(n) && destination == Image(st.workers[n].spec, st.workers[n].mem)
      modifies `st, `script, `trace, `undisturbed
      ensures Valid() && |script| <= |old(script)|
      ensures r.Down? ==> n !in st.workers
      ensures r.Fine? ==> At(n, Poll(st.now + 10 * SECOND), old(st.workers[n].mem), old(st.workers[n].spec))
      ensures r.Error? ==> At(n, MarkFailed, old(st.workers[n].mem).(phase := Failed), old(st.workers[n].spec))
      ensures old(Smooth(n, 1)) ==> r.Fine? && Smooth(n, |old(script)| - 1)
    {
      hide Run, Image, Server.Valid, Do, Step, Calm, FriendlyScript, Written, ObjectsAfter, OnItsWay, Reached, Is;
      var alive, io := Wait(n);
      if !alive { return Down; }
      if old(Smooth(n, 1)) { JobIsNew(n); }
      r := if name !in st.jobs && io.fault.Done? then Fine else Error;
      CreateGoesOn(st, n, st.workers[n], io);
      Perform(n, io);
    }

    lemma JobIsNew(n: string)
      requires Valid() && undisturbed && n == subject && n in st.workers && st.workers[n].pc == Pc.CreateJob
      ensures JobName(n) !in st.jobs
    {
      hide Server.Valid, AtPc;
      OnTheWay(n);
    }

    // -------------------------------------------------------------- cluster objects

    method ObjectExists(n: string, key: ObjectKey) returns (r: Found<ClusterObject>)
      requires Valid() && n in st.workers
      modifies `st, `script, `trace, `undisturbed
      ensures Valid() && |script| <= |old(script)|
      ensures r.Gone? ==> n !in st.workers
      ensures !r.Gone? ==> Own(n) == old(Own(n))
      ensures old(Smooth(n, 1)) ==> !r.Gone? && Smooth(n, |old(script)| - 1) && (r.Found? <==> key in st.objects)
    {
      hide Run, Step, Server.Valid, Calm, FriendlyScript;
      var alive, io := Wait(n);
      if !alive { return Gone; }
      if !io.fault.Done? { return Failure; }
      if key !in st.objects { return NotFound; }
      return Found(st.objects[key]);
    }

    /** Create refuses an object that exists, Update one that does not; neither checks a version. */
    method WriteObject(n: string, k: Slot, create: bool, o: ClusterObject) returns (r: Reply)
      requires Valid() && n in st.workers && st.workers[n].pc == Put(k)
      requires o == SlotObject(k, st.workers[n].spec, st.workers[n].mem)
      modifies `st, `script, `trace, `undisturbed
      ensures Valid() && |script| <= |old(script)|
      ensures r.Down? ==> n !in st.workers
      ensures !r.Down? ==> HasPut(Own(n), k, r.Fine?, old(st.workers[n].mem), old(st.workers[n].spec))
      ensures r.Fine? ==> SlotKey(k, n) in st.objects && st.objects[SlotKey(k, n)] == o
      ensures old(Smooth(n, 1)) && create != (SlotKey(k, n) in old(st.objects)) ==> r.Fine? && Smooth(n, |old(script)| - 1)
    {
      hide Run, Step, Do, Server.Valid, Calm, FriendlyScript, SlotKey, SlotObject, HasPut, Written, OnItsWay;
      var alive, io := Wait(n);
      if !alive { return Down; }
      var fault := if create == (SlotKey(k, n) in st.objects) then Rejected else io.fault;
      r := if fault.Done? then Fine else Error;
      PutGoesOn(st, n, st.workers[n], k, io.(fault := fault));
      Perform(n, io.(fault := fault));
    }

    method DeleteObject(n: string, k: Slot) returns (r: Reply)
      requires Valid() && n in st.workers && st.workers[n].pc == Del(k)
      modifies `st, `script, `trace, `undisturbed
      ensures Valid() && |script| <= |old(script)|
      ensures r.Down? ==> n !in st.workers
      ensures !r.Down? ==>
                match AfterDelete(k, r.Fine?) {
                  case Some(k') => At(n, Del(k'), old(st.workers[n].mem), old(st.workers[n].spec))
                  case None => At(n, RemoveFinalizer, old(st.workers[n].mem).(finalizer := false), old(st.workers[n].spec))
                }
      ensures Calm(old(script), 1) ==>
                && script == old(script)[1..] && st.objects == old(st.objects) - {SlotKey(k, n)}
                && r == if SlotKey(k, n) in old(st.objects) then Fine else Error
    {
      hide Run, Step, Do, Server.Valid, Calm, FriendlyScript, SlotKey, Written, OnItsWay;
      var alive, io := Wait(n);
      if !alive { return Down; }
      r := if io.fault.Done? && SlotKey(k, n) in st.objects then Fine else Error;
      DeleteGoesOn(st, n, st.workers[n], k, io);
      Perform(n, io);
    }

    // -------------------------------------------------------------- everything outside the cluster

    /** A call to GitHub or Keycloak, or time passing. */
    method Call(n: string) returns (r: Reply, io: Io)
      requires Valid() && n in st.workers
      modifies `st, `script, `trace, `undisturbed
      ensures Valid()
      ensures r.Down? ==> n !in st.workers && |script| <= |old(script)|
      ensures !r.Down? ==> Own(n) == old(Own(n)) && |script| < |old(script)| && (r.Fine? <==> io.fault.Done?)
      ensures old(Smooth(n, 1)) ==> r.Fine? && io.latest == latest && Smooth(n, |old(script)| - 1)
    {
      hide Run, Step, Server.Valid, Calm, FriendlyScript;
      var alive;
      alive, io := Wait(n);
      return if !alive then Down else if io.fault.Done? then Fine else Error, io;
    }

    method Sleep(n: string, d: nat) returns (r: Reply)
      requires Valid() && n in st.workers
      modifies `st, `script, `trace, `undisturbed
      ensures Valid() && |script| <= |old(script)|
      ensures r.Down? ==> n !in st.workers
      ensures !r.Down? ==> r.Fine? && Own(n) == old(Own(n)) && st.now >= old(st.now) + d
      ensures old(Smooth(n, 1)) && d <= 10 * SECOND ==>
                r.Fine? && Smooth(n, (if |old(script)| < LAST then |old(script)| else LAST) - 1)
    {
      hide Run, Step, Server.Valid, Calm, FriendlyScript;
      ghost var left := if |script| < LAST then |script| else LAST;
      var until := st.now + d;
      while st.now < until
        invariant Valid() && Own(n) == old(Own(n)) && |script| <= |old(script)| && st.now >= old(st.now)
        invariant old(Smooth(n, 1)) && d <= 10 * SECOND ==> Smooth(n, if st.now < until then left else left - 1)
        decreases |script|
      {
        var alive, _ := Wait(n);
        if !alive { return Down; }
      }
      return Fine;
    }

    // -------------------------------------------------------------- reconciles of environments

    function EnvOwn(e: string): Option<EnvWorker>
      reads this
    {
      EnvOwnOf(st, e)
    }

    method EnvWait(e: string) returns (alive: bool, io: Io)
      requires Valid()
      modifies `st, `script, `trace, `undisturbed
      ensures Valid()
      ensures alive ==> EnvOwn(e) == old(EnvOwn(e)) && |script| < |old(script)|
      ensures !alive ==> e !in st.envWorkers && |script| <= |old(script)|
      ensures Alone(old(script), 1) ==> alive && st == old(st) && io == old(script)[0].io && script == old(script)[1..]
    {
      if script == [] {
        Happen(EnvCrash(e));
        return false, Io(Done, "", "", [], [], [], []);
      }
      var turn := script[0];
      script := script[1..];
      for i := 0 to |turn.others|
        invariant Valid() && EnvOwn(e) == old(EnvOwn(e)) && script == old(script)[1..]
        invariant i == 0 ==> st == old(st)
      {
        if OthersOfEnv(e, turn.others[i]) {
          OthersLeaveEnvOwn(st, turn.others[i], e);
          Happen(turn.others[i]);
        }
      }
      return true, turn.io;
    }

    /** One step of the reconcile of `e`. */
    method EnvStep(e: string, io: Io)
      requires Valid() && e in st.envWorkers
      modifies `st, `trace, `undisturbed
      ensures Valid() && st == Step(old(st), EnvWork(e, io))
      ensures EnvOwn(e) == EnvDo(old(st), e, old(st.envWorkers[e]), io).1
      ensures st.insts == InstancesAfter(old(st), old(st.envWorkers[e]), io).insts
      ensures st.envs == EnvsAfter(old(st), e, old(st.envWorkers[e]), io).envs
    {
      hide Step, EnvDo, InstancesAfter, EnvsAfter, OnItsWay, Run, Init;
      EnvWorkEffect(st, e, io);
      Happen(EnvWork(e, io));
    }

    method EnvGet(e: string) returns (r: Found<Environment>)
      requires Valid() && e !in st.envWorkers
      modifies `st, `script, `trace, `undisturbed
      ensures Valid()
      ensures !r.Found? ==> e !in st.envWorkers
      ensures r.Found? ==>
                match FirstEnvPc(r.value) {
                  case Some(pc) => EnvOwn(e) == Some(EnvWorker(pc, r.value))
                  case None => e !in st.envWorkers
                }
      ensures Calm(old(script), 1) && e in old(st.envs) ==>
                && r == Found(old(st.envs[e])) && script == old(script)[1..]
                && st.insts == old(st.insts) && st.next == old(st.next) && st.envs == old(st.envs)
    {
      hide Run, EnvDo;
      var alive, io := EnvWait(e);
      if !alive { return Gone; }
      if !io.fault.Done? { return Failure; }
      if e !in st.envs { return NotFound; }
      r := Found(st.envs[e]);
      Happen(EnvBegin(e));
    }

    /** Update of an environment: also refused on a stale version. */
    method EnvUpdate(e: string, pe: Environment) returns (r: Reply, stored: Environment)
      requires Valid() && e in st.envWorkers
      requires var w := st.envWorkers[e];
               (w.pc.EnvAddFinalizer? && pe == w.copy.(finalizer := true)) || (w.pc.EnvRemoveFinalizer? && pe == w.copy.(finalizer := false))
      modifies `st, `script, `trace, `undisturbed
      ensures Valid()
      ensures r.Fine? && old(st.envWorkers[e].pc.EnvAddFinalizer?) ==> EnvOwn(e) == Some(EnvWorker(ListPulls, stored))
      ensures !(r.Fine? && old(st.envWorkers[e].pc.EnvAddFinalizer?)) ==> e !in st.envWorkers
      ensures Calm(old(script), 1) && e in old(st.envs) && old(st.envs[e]) == old(st.envWorkers[e].copy) ==>
                && r.Fine? && script == old(script)[1..] && st.insts == old(st.insts)
                && (pe.finalizer ==> stored == pe.(version := stored.version))
                && (pe.deleting && !pe.finalizer ==> e !in st.envs)
    {
      hide Run, Step, Server.Valid, FriendlyScript, Cluster.EnvUpdate, EnvAccepts, EnvDo, InstancesAfter, EnvsAfter;
      stored := pe;
      var alive, io := EnvWait(e);
      if !alive { return Down, stored; }
      r := if EnvAccepts(st, e, pe, io.fault) && io.fault.Done? then Fine else Error;
      EnvUpdateMoves(st, e, st.envWorkers[e], pe, io);
      EnvStep(e, io);
      if r.Fine? && e in st.envs { stored := st.envs[e]; }
    }

    method GetInstance(e: string, name: string) returns (r: Reply, existing: Option<Instance>)
      requires Valid() && e in st.envWorkers && st.envWorkers[e].pc.SaveRead?
      requires st.envWorkers[e].pc.todo != [] && st.envWorkers[e].pc.todo[0].name == name
      modifies `st, `script, `trace, `undisturbed
      ensures Valid()
      ensures r.Fine? ==> EnvOwn(e) == Some(old(st.envWorkers[e]).(pc := SaveWrite(old(st.envWorkers[e].pc.todo), existing)))
      ensures !r.Fine? ==> e !in st.envWorkers
      ensures Alone(old(script), 1) ==>
                && !r.Down? && script == old(script)[1..] && st.insts == old(st.insts) && st.next == old(st.next)
                && (r.Fine? <==> old(script)[0].io.fault.Done?)
                && existing == if name in old(st.insts) then Some(old(st.insts[name])) else None
    {
      hide Step, Undisturbed.Reached, Accomplished;
      var alive, io := EnvWait(e);
      if !alive { return Down, None; }
      existing := if name in st.insts then Some(st.insts[name]) else None;
      r := if io.fault.Done? then Fine else Error;
      EnvWorkEffect(st, e, io);
      ReadStep(st, e, io);
      hide Step;
      EnvStep(e, io);
    }

    method UpdateInstance(e: string, existing: Instance, d: Draft) returns (r: Reply)
      requires Valid() && e in st.envWorkers && existing.desired != ""
      requires var pc := st.envWorkers[e].pc; pc.SaveWrite? && pc.todo != [] && pc.todo[0] == d && pc.existing == Some(existing)
      modifies `st, `script, `trace, `undisturbed
      ensures Valid()
      ensures r.Fine? ==> EnvOwn(e) == Some(old(st.envWorkers[e]).(pc := SaveRead(old(st.envWorkers[e].pc.todo)[1..])))
      ensures !r.Fine? ==> e !in st.envWorkers
      ensures Alone(old(script), 1) ==>
                var s1 := SpecUpdate(old(st), d.name, Merged(existing, d), old(script)[0].io.fault);
                && !r.Down? && script == old(script)[1..] && st.insts == s1.insts && st.next == s1.next
                && (r.Fine? <==> Accepts(old(st), d.name, existing, old(script)[0].io.fault) && old(script)[0].io.fault.Done?)
    {
      var alive, io := EnvWait(e);
      if !alive { return Down; }
      r := if Accepts(st, d.name, existing, io.fault) && io.fault.Done? then Fine else Error;
      WriteStep(st, e, io);
      hide Step, SpecUpdate;
      EnvStep(e, io);
    }

    method CreateInstance(e: string, existing: Option<Instance>, d: Draft) returns (r: Reply)
      requires Valid() && e in st.envWorkers && (existing.Some? ==> existing.value.desired == "")
      requires var pc := st.envWorkers[e].pc; pc.SaveWrite? && pc.todo != [] && pc.todo[0] == d && pc.existing == existing
      modifies `st, `script, `trace, `undisturbed
      ensures Valid()
      ensures r.Fine? ==> EnvOwn(e) == Some(old(st.envWorkers[e]).(pc := SaveRead(old(st.envWorkers[e].pc.todo)[1..])))
      ensures !r.Fine? ==> e !in st.envWorkers
      ensures Alone(old(script), 1) ==>
                var refused := d.name in old(st.insts) || old(script)[0].io.fault.Rejected?;
                var s1 := if refused then old(st) else Cluster.CreateInstance(old(st), d);
                && !r.Down? && script == old(script)[1..] && st.insts == s1.insts && st.next == s1.next
                && (r.Fine? <==> !refused && old(script)[0].io.fault.Done?)
    {
      hide Run, Step, EnvDo, Server.Valid, Undisturbed.Reached;
      var alive, io := EnvWait(e);
      if !alive { return Down; }
      r := if d.name !in st.insts && io.fault.Done? then Fine else Error;
      WriteStep(st, e, io);
      hide Step, Cluster.CreateInstance;
      EnvStep(e, io);
    }
  }
}
