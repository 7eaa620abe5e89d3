/** What one step of a reconcile can change in the store, read off the step once and for all. */
module Effects {
  import opened Naming
  import opened Versions
  import opened Cluster

  predicate WritesStatus(pc: Pc) {
    || pc.MarkBuilding? || pc.MarkDeploying? || pc.MarkFailed? || pc.BeginDeploy? || pc.PublishUrl?
    || pc.MarkRunning? || pc.MarkPending?
  }

  predicate WritesSpec(pc: Pc) { pc.AddFinalizer? || pc.WriteHash? || pc.RemoveFinalizer? }

  function Written(s: State, n: string, w: Worker, io: Io): State {
    if WritesStatus(w.pc) then StatusUpdate(s, n, w.mem, io.fault)
    else if WritesSpec(w.pc) then SpecUpdate(s, n, w.mem, io.fault)
    else s
  }

  function ObjectsAfter(s: State, n: string, w: Worker, io: Io): map<ObjectKey, ClusterObject> {
    if io.fault.Rejected? then s.objects
    else if w.pc.Put? then s.objects[SlotKey(w.pc.k, n) := SlotObject(w.pc.k, w.spec, w.mem)]
    else if w.pc.Del? then s.objects - {SlotKey(w.pc.k, n)}
    else s.objects
  }

  /** The history of recorded builds grows when a finished build reaches the store. */
  function RecordedAfter(s: State, n: string, w: Worker, io: Io): map<string, seq<BuiltVersion>> {
    if w.pc.MarkDeploying? && w.pc.added.Some? && Accepts(s, n, w.mem, io.fault) && n in s.recorded
    then s.recorded[n := s.recorded[n] + [Stored(w.pc.added.value)]]
    else s.recorded
  }

  lemma StatusFrame(s: State, n: string, mem: Instance, fault: Fault)
    ensures var s' := StatusUpdate(s, n, mem, fault); s' == s.(insts := s'.insts, next := s'.next) && s'.next >= s.next
  {
  }

  predicate Releases(s: State, n: string, mem: Instance)
    requires n in s.insts
  {
    s.insts[n].deleting && !mem.finalizer
  }

  lemma SpecCases(s: State, n: string, mem: Instance, fault: Fault)
    ensures !Accepts(s, n, mem, fault) ==> SpecUpdate(s, n, mem, fault) == s
    ensures Accepts(s, n, mem, fault) && Releases(s, n, mem) ==> SpecUpdate(s, n, mem, fault) == DropInstance(s, n)
    ensures Accepts(s, n, mem, fault) && !Releases(s, n, mem) ==>
              SpecUpdate(s, n, mem, fault) == PutInstance(s, n, WithSpec(s.insts[n], mem, s.next))
  {
    hide PutInstance, DropInstance, WithSpec;
  }

  lemma SpecFrame(s: State, n: string, mem: Instance, fault: Fault)
    ensures var s' := SpecUpdate(s, n, mem, fault); s' == s.(insts := s'.insts, next := s'.next) && s'.next >= s.next
  {
    SpecCases(s, n, mem, fault);
    hide SpecUpdate;
    if !Accepts(s, n, mem, fault) {
    } else if Releases(s, n, mem) {
    } else {
    }
  }

  lemma WrittenCases(s: State, n: string, w: Worker, io: Io)
    ensures WritesStatus(w.pc) ==> Written(s, n, w, io) == StatusUpdate(s, n, w.mem, io.fault)
    ensures WritesSpec(w.pc) ==> Written(s, n, w, io) == SpecUpdate(s, n, w.mem, io.fault)
    ensures !WritesStatus(w.pc) && !WritesSpec(w.pc) ==> Written(s, n, w, io) == s
  {
    hide StatusUpdate, SpecUpdate;
  }

  lemma WrittenFrame(s: State, n: string, w: Worker, io: Io)
    ensures var s' := Written(s, n, w, io); s' == s.(insts := s'.insts, next := s'.next) && s'.next >= s.next
  {
    hide StatusUpdate, SpecUpdate;
    StatusFrame(s, n, w.mem, io.fault);
    SpecFrame(s, n, w.mem, io.fault);
  }

  lemma WriteFrame(s: State, n: string, w: Worker, io: Io)
    requires WritesStatus(w.pc) || WritesSpec(w.pc)
    requires w.pc.MarkDeploying? ==> w.pc.added.None?
    ensures Do(s, n, w, io).0 == Written(s, n, w, io)
  {
    hide StatusUpdate, SpecUpdate, Accepts;
  }

  lemma FinishBuildFrame(s: State, n: string, w: Worker, io: Io)
    requires w.pc.MarkDeploying?
    ensures Do(s, n, w, io).0 == Written(s, n, w, io).(recorded := RecordedAfter(s, n, w, io))
  {
    StatusFrame(s, n, w.mem, io.fault);
    hide StatusUpdate, Accepts;
    if RecordedAfter(s, n, w, io) == s.recorded {
    } else {
    }
  }

  lemma ObjectFrame(s: State, n: string, w: Worker, io: Io)
    requires w.pc.Put? || w.pc.Del?
    ensures Do(s, n, w, io).0 == s.(objects := ObjectsAfter(s, n, w, io))
  {
    hide SlotKey, SlotObject;
    if w.pc.Put? {
      if io.fault.Rejected? { assert Do(s, n, w, io).0 == s; }
    } else {
      var k := w.pc.k;
      assert AfterDelete(k, true).Some? == AfterDelete(k, false).Some?;
      if io.fault.Rejected? { assert Do(s, n, w, io).0 == s; }
    }
  }

  lemma JobFrame(s: State, n: string, w: Worker, io: Io)
    requires w.pc.CreateJob?
    ensures var s' := Do(s, n, w, io).0; s' == s.(jobs := s'.jobs, builds := s'.builds)
  {
    if JobName(n) in s.jobs || io.fault.Rejected? {
      assert Do(s, n, w, io).0 == s;
    } else {
      assert Do(s, n, w, io).0 == NewJob(s, JobName(n), Image(w.spec, w.mem));
    }
  }

  lemma QuietFrame(s: State, n: string, w: Worker, io: Io)
    requires !WritesStatus(w.pc) && !WritesSpec(w.pc) && !w.pc.Put? && !w.pc.Del? && !w.pc.CreateJob?
    ensures Do(s, n, w, io).0 == s
  {
    hide UpdateResult;
  }

  lemma DoFrame(s: State, n: string, w: Worker, io: Io)
    ensures var s1 := Do(s, n, w, io).0; var written := Written(s, n, w, io);
            s1 == s.(insts := written.insts, next := written.next, objects := ObjectsAfter(s, n, w, io),
                     jobs := s1.jobs, builds := s1.builds, recorded := RecordedAfter(s, n, w, io))
            && written.next >= s.next
            && (!w.pc.CreateJob? ==> s1.jobs == s.jobs && s1.builds == s.builds)
  {
    WrittenFrame(s, n, w, io);
    if w.pc.MarkDeploying? {
      FinishBuildFrame(s, n, w, io);
    } else if WritesStatus(w.pc) || WritesSpec(w.pc) {
      WriteFrame(s, n, w, io);
    } else if w.pc.Put? || w.pc.Del? {
      ObjectFrame(s, n, w, io);
    } else if w.pc.CreateJob? {
      JobFrame(s, n, w, io);
    } else {
      QuietFrame(s, n, w, io);
    }
    hide Do, StatusUpdate, SpecUpdate, SlotKey, SlotObject;
  }

  lemma WorkStepIs(s: State, n: string, io: Io)
    requires n in s.workers
    ensures var o := Do(s, n, s.workers[n], io); Step(s, Work(n, io)) == SetWorker(o.0, n, o.1)
  {
    hide Do, EnvDo, SetWorker, SetEnvWorker, BeginReconcile, BeginEnvReconcile, StatusUpdate, RequestDelete, EnvUpdate, PutInstance;
  }

  lemma WorkerSet(s: State, n: string, o: Option<Worker>)
    ensures var t := SetWorker(s, n, o);
            && t == s.(workers := t.workers) && t.workers.Keys - {n} == s.workers.Keys - {n}
            && (forall m | m in s.workers && m != n :: m in t.workers && t.workers[m] == s.workers[m])
            && (if n in t.workers then o == Some(t.workers[n]) else o == None)
  {
  }

  lemma EnvStepIs(s: State, e: string, io: Io)
    requires e in s.envWorkers
    ensures var o := EnvDo(s, e, s.envWorkers[e], io); Step(s, EnvWork(e, io)) == SetEnvWorker(o.0, e, o.1)
  {
    hide Do, EnvDo, SetEnvWorker, SetWorker, BeginReconcile, BeginEnvReconcile, StatusUpdate, RequestDelete, EnvUpdate, PutInstance;
  }

  lemma EnvWorkerSet(s: State, e: string, o: Option<EnvWorker>)
    ensures var t := SetEnvWorker(s, e, o);
            && t == s.(envWorkers := t.envWorkers) && t.envWorkers.Keys - {e} == s.envWorkers.Keys - {e}
            && (forall m | m in s.envWorkers && m != e :: m in t.envWorkers && t.envWorkers[m] == s.envWorkers[m])
            && (if e in t.envWorkers then o == Some(t.envWorkers[e]) else o == None)
  {
  }

  /** A step of worker `n` on everything but its own program counter and the jobs. */
  lemma WorkEffect(s: State, n: string, io: Io)
    requires n in s.workers
    ensures var s' := Step(s, Work(n, io)); var w := s.workers[n]; var written := Written(s, n, w, io);
            && s'.insts == written.insts && s'.next == written.next
            && s'.objects == ObjectsAfter(s, n, w, io) && s'.recorded == RecordedAfter(s, n, w, io)
            && s'.envs == s.envs && s'.envWorkers == s.envWorkers && s'.handlers == s.handlers
            && s'.specs == s.specs && s'.pushed == s.pushed && s'.now == s.now && s'.nextUid == s.nextUid
            && (!w.pc.CreateJob? ==> s'.jobs == s.jobs && s'.builds == s.builds)
            && s'.workers.Keys - {n} == s.workers.Keys - {n}
            && (forall m | m in s.workers && m != n :: m in s'.workers && s'.workers[m] == s.workers[m])
            && (n in s'.workers ==> Do(s, n, w, io).1 == Some(s'.workers[n]))
            && (n !in s'.workers ==> Do(s, n, w, io).1 == None)
  {
    hide Step, Do, Written, ObjectsAfter, RecordedAfter, SetWorker;
    var w := s.workers[n];
    DoFrame(s, n, w, io);
    WorkStepIs(s, n, io);
    var (s1, o) := Do(s, n, w, io);
    WorkerSet(s1, n, o);
  }

  /** What a step of an environment's worker does to the instances. */
  function InstancesAfter(s: State, w: EnvWorker, io: Io): State {
    match w.pc
    case SaveWrite(todo, existing) =>
      if todo == [] then s
      else if existing.Some? && existing.value.desired != ""
      then SpecUpdate(s, todo[0].name, Merged(existing.value, todo[0]), io.fault)
      else if todo[0].name in s.insts || io.fault.Rejected? then s
      else CreateInstance(s, todo[0])
    case DeleteNext(names) =>
      if names == [] || names[0] !in s.insts || io.fault.Rejected? then s else RequestDelete(s, names[0])
    case _ => s
  }

  function EnvsAfter(s: State, e: string, w: EnvWorker, io: Io): State {
    if (w.pc.EnvAddFinalizer? || w.pc.EnvRemoveFinalizer?) && EnvAccepts(s, e, w.copy, io.fault)
    then EnvUpdate(s, e, w.copy.(finalizer := w.pc.EnvAddFinalizer?)) else s
  }

  lemma CreateFrame(s: State, d: Draft)
    ensures var s' := CreateInstance(s, d);
            s' == s.(insts := s'.insts, next := s'.next, recorded := s'.recorded) && s'.next >= s.next
  {
  }

  lemma DeleteCases(s: State, n: string)
    requires n in s.insts
    ensures !s.insts[n].finalizer ==> RequestDelete(s, n) == DropInstance(s, n)
    ensures s.insts[n].finalizer && s.insts[n].deleting ==> RequestDelete(s, n) == s
    ensures s.insts[n].finalizer && !s.insts[n].deleting ==>
              RequestDelete(s, n) == PutInstance(s, n, s.insts[n].(deleting := true, version := s.next))
  {
    hide PutInstance, DropInstance;
  }

  lemma DropInstances(s: State, n: string, m: string)
    ensures m in DropInstance(s, n).insts <==> m in s.insts && m != n
    ensures m in DropInstance(s, n).insts ==> DropInstance(s, n).insts[m] == s.insts[m]
  {
  }

  lemma PutInstances(s: State, n: string, i: Instance, m: string)
    ensures m in PutInstance(s, n, i).insts <==> m in s.insts || m == n
    ensures m in PutInstance(s, n, i).insts ==> PutInstance(s, n, i).insts[m] == if m == n then i else s.insts[m]
  {
  }

  lemma DeleteInstances(s: State, n: string, m: string)
    requires n in s.insts && m in RequestDelete(s, n).insts
    ensures m in s.insts
    ensures RequestDelete(s, n).insts[m] == s.insts[m].(deleting := RequestDelete(s, n).insts[m].deleting,
                                                        version := RequestDelete(s, n).insts[m].version)
  {
    DeleteCases(s, n);
    hide RequestDelete, DropInstance, PutInstance;
    if !s.insts[n].finalizer {
      DropInstances(s, n, m);
    } else if !s.insts[n].deleting {
      PutInstances(s, n, s.insts[n].(deleting := true, version := s.next), m);
    }
  }

  lemma DropFrame(s: State, n: string)
    ensures var s' := DropInstance(s, n); s' == s.(insts := s'.insts, next := s'.next) && s'.next >= s.next
  {
  }

  lemma PutFrame(s: State, n: string, i: Instance)
    ensures var s' := PutInstance(s, n, i); s' == s.(insts := s'.insts, next := s'.next) && s'.next >= s.next
  {
  }

  lemma DeleteFrame(s: State, n: string)
    requires n in s.insts
    ensures var s' := RequestDelete(s, n); s' == s.(insts := s'.insts, next := s'.next) && s'.next >= s.next
  {
    DeleteCases(s, n);
    DropFrame(s, n);
    PutFrame(s, n, s.insts[n].(deleting := true, version := s.next));
    hide RequestDelete, DropInstance, PutInstance;
    if !s.insts[n].finalizer {
    } else if s.insts[n].deleting {
    } else {
    }
  }

  lemma EnvUpdateFrame(s: State, e: string, env: Environment)
    ensures var s' := EnvUpdate(s, e, env); s' == s.(envs := s'.envs, next := s'.next) && s'.next >= s.next
  {
    if env.deleting && !env.finalizer {
      assert EnvUpdate(s, e, env) == s.(envs := s.envs - {e}, next := s.next + 1);
    } else {
      assert EnvUpdate(s, e, env) == s.(envs := s.envs[e := env.(version := s.next)], next := s.next + 1);
    }
  }

  predicate Updates(w: EnvWorker) {
    w.pc.SaveWrite? && w.pc.todo != [] && w.pc.existing.Some? && w.pc.existing.value.desired != ""
  }

  predicate Creates(s: State, w: EnvWorker, io: Io) {
    w.pc.SaveWrite? && w.pc.todo != [] && !Updates(w) && w.pc.todo[0].name !in s.insts && !io.fault.Rejected?
  }

  predicate Deletes(s: State, w: EnvWorker, io: Io) {
    w.pc.DeleteNext? && w.pc.names != [] && w.pc.names[0] in s.insts && !io.fault.Rejected?
  }

  lemma AfterCases(s: State, w: EnvWorker, io: Io)
    ensures Updates(w) ==>
              InstancesAfter(s, w, io) == SpecUpdate(s, w.pc.todo[0].name, Merged(w.pc.existing.value, w.pc.todo[0]), io.fault)
    ensures Creates(s, w, io) ==> InstancesAfter(s, w, io) == CreateInstance(s, w.pc.todo[0])
    ensures Deletes(s, w, io) ==> InstancesAfter(s, w, io) == RequestDelete(s, w.pc.names[0])
    ensures !Updates(w) && !Creates(s, w, io) && !Deletes(s, w, io) ==> InstancesAfter(s, w, io) == s
  {
    hide SpecUpdate, CreateInstance, RequestDelete, Merged;
  }

  lemma AfterFrame(s: State, w: EnvWorker, io: Io)
    ensures var s' := InstancesAfter(s, w, io);
            s' == s.(insts := s'.insts, next := s'.next, recorded := s'.recorded) && s'.next >= s.next
  {
    AfterCases(s, w, io);
    if Updates(w) {
      SpecFrame(s, w.pc.todo[0].name, Merged(w.pc.existing.value, w.pc.todo[0]), io.fault);
    } else if Creates(s, w, io) {
      CreateFrame(s, w.pc.todo[0]);
    } else if Deletes(s, w, io) {
      DeleteFrame(s, w.pc.names[0]);
    }
    hide InstancesAfter, SpecUpdate, CreateInstance, RequestDelete, Merged;
  }

  lemma EnvDoIs(s: State, e: string, w: EnvWorker, io: Io)
    ensures var s1 := EnvDo(s, e, w, io).0;
            s1 == if w.pc.EnvAddFinalizer? || w.pc.EnvRemoveFinalizer? then EnvsAfter(s, e, w, io) else InstancesAfter(s, w, io)
  {
    hide SpecUpdate, EnvUpdate, CreateInstance, RequestDelete, Accepts, EnvAccepts, Merged, PullDrafts, BranchDrafts;
    match w.pc
    case SaveWrite(todo, existing) =>
    case DeleteNext(names) =>
    case EnvAddFinalizer =>
    case EnvRemoveFinalizer =>
    case _ =>
  }

  lemma EnvDoFrame(s: State, e: string, w: EnvWorker, io: Io)
    ensures var s1 := EnvDo(s, e, w, io).0; var i := InstancesAfter(s, w, io);
            s1 == s.(insts := i.insts, recorded := i.recorded, envs := EnvsAfter(s, e, w, io).envs, next := s1.next)
            && s1.next >= s.next
  {
    EnvDoIs(s, e, w, io);
    AfterFrame(s, w, io);
    EnvUpdateFrame(s, e, w.copy.(finalizer := w.pc.EnvAddFinalizer?));
    hide EnvDo, EnvUpdate, SpecUpdate, CreateInstance, RequestDelete;
  }

  lemma EnvWorkEffect(s: State, e: string, io: Io)
    requires e in s.envWorkers
    ensures var s' := Step(s, EnvWork(e, io)); var w := s.envWorkers[e];
            && s'.insts == InstancesAfter(s, w, io).insts && s'.recorded == InstancesAfter(s, w, io).recorded
            && s'.envs == EnvsAfter(s, e, w, io).envs && s'.next >= s.next
            && s'.objects == s.objects && s'.jobs == s.jobs && s'.workers == s.workers && s'.handlers == s.handlers
            && s'.specs == s.specs && s'.pushed == s.pushed && s'.now == s.now && s'.nextUid == s.nextUid
            && s'.builds == s.builds
            && (forall m | m in s.envWorkers && m != e :: m in s'.envWorkers && s'.envWorkers[m] == s.envWorkers[m])
            && s'.envWorkers.Keys - {e} == s.envWorkers.Keys - {e}
            && (e in s'.envWorkers ==> EnvDo(s, e, w, io).1 == Some(s'.envWorkers[e]))
            && (e !in s'.envWorkers ==> EnvDo(s, e, w, io).1 == None)
  {
    hide Step, EnvDo, InstancesAfter, EnvsAfter, SetEnvWorker;
    var w := s.envWorkers[e];
    EnvDoFrame(s, e, w, io);
    EnvStepIs(s, e, io);
    var (s1, o) := EnvDo(s, e, w, io);
    EnvWorkerSet(s1, e, o);
  }

  /** The steps of everyone but the reconcilers, read off the machine one by one. */
  lemma EnvEventIs(s: State, ev: Event)
    ensures ev.DeleteEnv? ==>
              Step(s, ev) == if ev.e in s.envs && !s.envs[ev.e].deleting then EnvUpdate(s, ev.e, s.envs[ev.e].(deleting := true)) else s
    ensures ev.EditEnv? ==> Step(s, ev) == if ev.e in s.envs then EnvUpdate(s, ev.e, s.envs[ev.e]) else s
    ensures ev.CreateEnv? ==>
              Step(s, ev) ==
              if ev.e in s.envs || ev.spec.name != ev.e then s else
                s.(envs := s.envs[ev.e := Environment(s.nextUid, ev.spec, false, false, s.next)], next := s.next + 1,
                   specs := s.specs[s.nextUid := ev.spec], nextUid := s.nextUid + 1)
  {
    hide Do, EnvDo, SetWorker, SetEnvWorker, BeginReconcile, BeginEnvReconcile, StatusUpdate, RequestDelete, EnvUpdate, PutInstance;
  }

  lemma InstanceEventIs(s: State, ev: Event)
    ensures ev.DeleteInstance? ==> Step(s, ev) == if ev.n in s.insts then RequestDelete(s, ev.n) else s
    ensures ev.EditInstance? ==>
              Step(s, ev) ==
              if ev.n in s.insts then PutInstance(s, ev.n, s.insts[ev.n].(desired := ev.desired, version := s.next)) else s
    ensures ev.HandlerWrite? ==>
              Step(s, ev) ==
              if ev.id !in s.handlers then s else
                var h := s.handlers[ev.id];
                StatusUpdate(s, h.name, h.copy.(phase := Pending), ev.fault).(handlers := s.handlers - {ev.id})
  {
    hide Do, EnvDo, SetWorker, SetEnvWorker, BeginReconcile, BeginEnvReconcile, StatusUpdate, RequestDelete, EnvUpdate, PutInstance;
  }

  lemma PassingEventIs(s: State, ev: Event)
    ensures ev.Begin? ==> Step(s, ev) == BeginReconcile(s, ev.n)
    ensures ev.Crash? ==> Step(s, ev) == s.(workers := s.workers - {ev.n})
    ensures ev.EnvBegin? ==> Step(s, ev) == BeginEnvReconcile(s, ev.e)
    ensures ev.EnvCrash? ==> Step(s, ev) == s.(envWorkers := s.envWorkers - {ev.e})
    ensures ev.HandlerRead? ==>
              Step(s, ev) == if ev.n in s.insts then s.(handlers := s.handlers[ev.id := Handler(ev.n, s.insts[ev.n])]) else s
    ensures ev.JobReport? ==>
              Step(s, ev) ==
              if ev.j in s.jobs
              then Report(s, ev.j, s.jobs[ev.j].(active := ev.active, succeeded := ev.succeeded, failed := ev.failed)) else s
    ensures ev.JobRemoved? ==> Step(s, ev) == s.(jobs := s.jobs - {ev.j})
    ensures ev.LoseObject? ==> Step(s, ev) == s.(objects := s.objects - {ev.key})
    ensures ev.Tick? ==> Step(s, ev) == s.(now := s.now + ev.d)
  {
    hide Do, EnvDo, BeginReconcile, BeginEnvReconcile, StatusUpdate, RequestDelete, EnvUpdate, PutInstance, Report;
  }

  /** The thing it is about is not there. */
  predicate AboutNothing(s: State, ev: Event) {
    match ev
    case Work(n, _) => n !in s.workers
    case EnvWork(e, _) => e !in s.envWorkers
    case HandlerWrite(id, _) => id !in s.handlers
    case DeleteInstance(n) => n !in s.insts
    case EditInstance(n, _) => n !in s.insts
    case DeleteEnv(e) => e !in s.envs
    case EditEnv(e) => e !in s.envs
    case _ => false
  }

  lemma NothingHappens(s: State, ev: Event)
    requires AboutNothing(s, ev)
    ensures Step(s, ev) == s
  {
    hide Do, EnvDo, SetWorker, SetEnvWorker, StatusUpdate, RequestDelete, EnvUpdate, PutInstance;
  }

  predicate Passing(ev: Event) {
    || ev.Begin? || ev.Crash? || ev.EnvBegin? || ev.EnvCrash? || ev.HandlerRead?
    || ev.JobReport? || ev.JobRemoved? || ev.LoseObject? || ev.Tick?
  }

  lemma BeginsFrame(s: State, n: string)
    ensures var t := BeginReconcile(s, n); t == s.(workers := t.workers)
    ensures var t := BeginEnvReconcile(s, n); t == s.(envWorkers := t.envWorkers)
  {
    hide FirstPc, FirstEnvPc;
  }

  /** Passing events leave the stored resources alone. */
  lemma PassingFrame(s: State, ev: Event)
    requires Passing(ev)
    ensures var t := Step(s, ev);
            && t.insts == s.insts && t.envs == s.envs && t.specs == s.specs && t.next == s.next && t.nextUid == s.nextUid
            && t.recorded == s.recorded && t.builds == s.builds && t.now >= s.now && (!ev.LoseObject? ==> t.objects == s.objects)
  {
    hide Step, BeginReconcile, BeginEnvReconcile;
    PassingEventIs(s, ev);
    if ev.Begin? { BeginsFrame(s, ev.n); }
    if ev.EnvBegin? { BeginsFrame(s, ev.e); }
  }

  /** Events about an instance change it and the handler's copies, and nothing else. */
  lemma InstanceEventFrame(s: State, ev: Event)
    requires ev.HandlerWrite? || ev.DeleteInstance? || ev.EditInstance?
    ensures var t := Step(s, ev); t == s.(insts := t.insts, next := t.next, handlers := t.handlers) && t.next >= s.next
  {
    hide Step, StatusUpdate, RequestDelete, PutInstance;
    InstanceEventIs(s, ev);
    if AboutNothing(s, ev) {
    } else if ev.HandlerWrite? {
      StatusFrame(s, s.handlers[ev.id].name, s.handlers[ev.id].copy.(phase := Pending), ev.fault);
    } else if ev.DeleteInstance? {
      DeleteFrame(s, ev.n);
    } else {
      PutFrame(s, ev.n, s.insts[ev.n].(desired := ev.desired, version := s.next));
    }
  }

  /** Events about an environment change it, and nothing else. */
  lemma EnvEventFrame(s: State, ev: Event)
    requires ev.CreateEnv? || ev.DeleteEnv? || ev.EditEnv?
    ensures var t := Step(s, ev);
            t == s.(envs := t.envs, next := t.next, specs := t.specs, nextUid := t.nextUid) && t.next >= s.next
            && (!ev.CreateEnv? ==> t.specs == s.specs)
  {
    hide Step, EnvUpdate;
    EnvEventIs(s, ev);
    if !ev.CreateEnv? && ev.e in s.envs { EnvUpdateFrame(s, ev.e, if ev.DeleteEnv? then s.envs[ev.e].(deleting := true) else s.envs[ev.e]); }
  }

  predicate TouchesInstances(ev: Event) {
    ev.Work? || ev.EnvWork? || ev.HandlerWrite? || ev.DeleteInstance? || ev.EditInstance?
  }

  lemma OthersLeaveInstances(s: State, ev: Event)
    requires !TouchesInstances(ev)
    ensures Step(s, ev).insts == s.insts && Step(s, ev).recorded == s.recorded
  {
    hide Step;
    if ev.CreateEnv? || ev.DeleteEnv? || ev.EditEnv? { EnvEventFrame(s, ev); } else { PassingFrame(s, ev); }
  }

  lemma ObjectsStay(s: State, ev: Event)
    requires !ev.Work? && !ev.LoseObject?
    ensures Step(s, ev).objects == s.objects
  {
    hide Step, Do, EnvDo;
    if AboutNothing(s, ev) {
      NothingHappens(s, ev);
    } else if ev.EnvWork? {
      EnvWorkEffect(s, ev.e, ev.io);
    } else if TouchesInstances(ev) {
      InstanceEventFrame(s, ev);
    } else if ev.CreateEnv? || ev.DeleteEnv? || ev.EditEnv? {
      EnvEventFrame(s, ev);
    } else {
      PassingFrame(s, ev);
    }
  }

  predicate FromOutside(ev: Event) {
    !ev.Begin? && !ev.Work? && !ev.Crash? && !ev.EnvBegin? && !ev.EnvWork? && !ev.EnvCrash?
  }

  lemma OutsideWorkers(s: State, ev: Event)
    requires Passing(ev) && FromOutside(ev)
    ensures Step(s, ev).workers == s.workers && Step(s, ev).envWorkers == s.envWorkers
  {
    hide Step;
    PassingEventIs(s, ev);
  }

  lemma OutsideFrame(s: State, ev: Event)
    requires FromOutside(ev)
    ensures var s' := Step(s, ev); s'.workers == s.workers && s'.envWorkers == s.envWorkers && s'.now >= s.now
  {
    hide Step, Report;
    if ev.HandlerWrite? || ev.DeleteInstance? || ev.EditInstance? {
      InstanceEventFrame(s, ev);
    } else if ev.CreateEnv? || ev.DeleteEnv? || ev.EditEnv? {
      EnvEventFrame(s, ev);
    } else {
      PassingFrame(s, ev);
      OutsideWorkers(s, ev);
    }
  }

  lemma BeginFrame(s: State, m: string, n: string)
    requires n in BeginReconcile(s, m).workers && !(m == n && n !in s.workers)
    ensures n in s.workers && BeginReconcile(s, m).workers[n] == s.workers[n]
  {
  }

  lemma EnvBeginFrame(s: State, e: string)
    ensures BeginEnvReconcile(s, e).workers == s.workers
  {
    hide FirstEnvPc;
  }

  lemma PassingWorkers(s: State, ev: Event, n: string)
    requires (ev.Begin? || ev.Crash? || ev.EnvBegin? || ev.EnvCrash?) && n in Step(s, ev).workers && !(ev == Begin(n) && n !in s.workers)
    ensures n in s.workers && Step(s, ev).workers[n] == s.workers[n]
  {
    hide Step, BeginReconcile, BeginEnvReconcile;
    PassingEventIs(s, ev);
    match ev
    case Begin(m) => BeginFrame(s, m, n);
    case EnvBegin(e) => EnvBeginFrame(s, e);
    case _ =>
  }

  /** A worker changes only by its own steps. */
  lemma WorkersStay(s: State, ev: Event, n: string)
    requires n in Step(s, ev).workers
    requires !(ev.Work? && ev.n == n) && !(ev == Begin(n) && n !in s.workers)
    ensures n in s.workers && Step(s, ev).workers[n] == s.workers[n]
  {
    hide Step, Do, EnvDo, Written, ObjectsAfter, RecordedAfter, InstancesAfter, EnvsAfter;
    if AboutNothing(s, ev) {
      NothingHappens(s, ev);
    } else if FromOutside(ev) {
      OutsideFrame(s, ev);
    } else if ev.Work? {
      WorkEffect(s, ev.n, ev.io);
      assert n in Step(s, ev).workers.Keys - {ev.n};
    } else if ev.EnvWork? {
      EnvWorkEffect(s, ev.e, ev.io);
    } else {
      PassingWorkers(s, ev, n);
    }
  }

  lemma WorkerGone(s: State, ev: Event, n: string)
    requires n in s.workers && n !in Step(s, ev).workers
    ensures ev == Crash(n) || (ev.Work? && ev.n == n)
  {
    hide Do, EnvDo, FirstPc, FirstEnvPc;
    if FromOutside(ev) {
      OutsideFrame(s, ev);
    } else {
      match ev
      case Work(m, io) =>
        if m in s.workers { WorkEffect(s, m, io); }
      case EnvWork(e, io) =>
        if e in s.envWorkers { EnvWorkEffect(s, e, io); }
      case _ =>
    }
  }

  lemma EnvBegins(s: State, f: string, e: string)
    requires e in BeginEnvReconcile(s, f).envWorkers
    ensures var w := BeginEnvReconcile(s, f).envWorkers[e];
            if e in s.envWorkers then w == s.envWorkers[e]
            else f == e && e in s.envs && FirstEnvPc(s.envs[e]).Some? && w == EnvWorker(FirstEnvPc(s.envs[e]).value, s.envs[e])
  {
    hide FirstEnvPc;
  }

  lemma PassingEnvWorkers(s: State, ev: Event, e: string)
    requires (ev.Begin? || ev.Crash? || ev.EnvBegin? || ev.EnvCrash?) && e in Step(s, ev).envWorkers
    ensures e in s.envWorkers ==> Step(s, ev).envWorkers[e] == s.envWorkers[e]
    ensures e !in s.envWorkers ==> ev == EnvBegin(e) && e in s.envs && FirstEnvPc(s.envs[e]).Some?
    ensures e !in s.envWorkers ==> Step(s, ev).envWorkers[e] == EnvWorker(FirstEnvPc(s.envs[e]).value, s.envs[e])
  {
    hide Step, BeginReconcile, BeginEnvReconcile, FirstEnvPc;
    PassingEventIs(s, ev);
    match ev
    case Begin(n) => BeginsFrame(s, n);
    case EnvBegin(f) => EnvBegins(s, f, e);
    case _ =>
  }

  /** An environment worker changes by its own steps, or has just begun and holds no drafts. */
  lemma EnvWorkersStay(s: State, ev: Event, e: string)
    requires e in Step(s, ev).envWorkers && !(ev.EnvWork? && ev.e == e)
    ensures e in s.envWorkers ==> Step(s, ev).envWorkers[e] == s.envWorkers[e]
    ensures e !in s.envWorkers ==> ev == EnvBegin(e) && e in s.envs && FirstEnvPc(s.envs[e]).Some?
    ensures e !in s.envWorkers ==> Step(s, ev).envWorkers[e] == EnvWorker(FirstEnvPc(s.envs[e]).value, s.envs[e])
  {
    hide Step, Do, EnvDo, Written, ObjectsAfter, RecordedAfter, InstancesAfter, EnvsAfter, FirstEnvPc;
    if AboutNothing(s, ev) {
      NothingHappens(s, ev);
    } else if FromOutside(ev) {
      OutsideFrame(s, ev);
    } else if ev.Work? {
      WorkEffect(s, ev.n, ev.io);
    } else if ev.EnvWork? {
      EnvWorkEffect(s, ev.e, ev.io);
      assert e in Step(s, ev).envWorkers.Keys - {ev.e};
    } else {
      PassingEnvWorkers(s, ev, e);
    }
  }

  lemma EnvWorkerGone(s: State, ev: Event, e: string)
    requires e in s.envWorkers && e !in Step(s, ev).envWorkers
    ensures ev == EnvCrash(e) || (ev.EnvWork? && ev.e == e)
  {
    hide Do, EnvDo, FirstPc, FirstEnvPc;
    if FromOutside(ev) {
      OutsideFrame(s, ev);
    } else {
      match ev
      case Work(m, io) => if m in s.workers { WorkEffect(s, m, io); }
      case EnvWork(f, io) => if f in s.envWorkers { EnvWorkEffect(s, f, io); }
      case _ =>
    }
  }

  lemma TimeMoves(s: State, ev: Event)
    ensures Step(s, ev).now >= s.now
  {
    hide Step, Do, EnvDo, Written, ObjectsAfter, RecordedAfter, InstancesAfter, EnvsAfter;
    if AboutNothing(s, ev) {
      NothingHappens(s, ev);
    } else if ev.Work? {
      WorkEffect(s, ev.n, ev.io);
    } else if ev.EnvWork? {
      EnvWorkEffect(s, ev.e, ev.io);
    } else if Passing(ev) {
      PassingFrame(s, ev);
    } else if TouchesInstances(ev) {
      InstanceEventFrame(s, ev);
    } else {
      EnvEventFrame(s, ev);
    }
  }

  // ---------------------------------------------------------------- where instances come from

  /** New instances come from the environment reconciler's drafts. */
  lemma NewInstances(s: State, ev: Event, n: string)
    requires n in Step(s, ev).insts && n !in s.insts
    ensures ev.EnvWork? && ev.e in s.envWorkers && Creates(s, s.envWorkers[ev.e], ev.io)
    ensures n == s.envWorkers[ev.e].pc.todo[0].name
    ensures !Step(s, ev).insts[n].deleting
  {
    if ev.EnvWork? {
      assert ev.e in s.envWorkers;
      EnvWorkEffect(s, ev.e, ev.io);
      AfterKeys(s, s.envWorkers[ev.e], ev.io, n);
      hide Step, InstancesAfter;
    } else if ev.Work? {
      assert ev.n in s.workers;
      WorkEffect(s, ev.n, ev.io);
      WrittenKeys(s, ev.n, s.workers[ev.n], ev.io, n);
      hide Step, Written;
    } else if TouchesInstances(ev) {
      OutsideKeys(s, ev, n);
      hide Step;
    } else {
      OthersLeaveInstances(s, ev);
      hide Step;
    }
  }

  lemma SpecKeys(s: State, n: string, mem: Instance, fault: Fault, m: string)
    requires m in SpecUpdate(s, n, mem, fault).insts
    ensures m in s.insts && SpecUpdate(s, n, mem, fault).insts[m].deleting == s.insts[m].deleting
    ensures SpecUpdate(s, n, mem, fault).insts[m].deleting ==> s.insts[m].finalizer ==> SpecUpdate(s, n, mem, fault).insts[m].finalizer
  {
    SpecCases(s, n, mem, fault);
    hide SpecUpdate, DropInstance, PutInstance;
    if Accepts(s, n, mem, fault) {
      PutInstances(s, n, WithSpec(s.insts[n], mem, s.next), m);
      DropInstances(s, n, m);
    }
  }

  lemma StatusKeys(s: State, n: string, mem: Instance, fault: Fault, m: string)
    requires m in StatusUpdate(s, n, mem, fault).insts
    ensures m in s.insts && StatusUpdate(s, n, mem, fault).insts[m].deleting == s.insts[m].deleting
    ensures StatusUpdate(s, n, mem, fault).insts[m].finalizer == s.insts[m].finalizer
  {
    hide PutInstance;
    if Accepts(s, n, mem, fault) { PutInstances(s, n, WithStatus(s.insts[n], mem, s.next), m); }
  }

  predicate MarkedOk(i: Instance) { i.deleting ==> i.finalizer }

  lemma WrittenKeys(s: State, n: string, w: Worker, io: Io, m: string)
    requires m in Written(s, n, w, io).insts
    ensures m in s.insts && (MarkedOk(s.insts[m]) ==> MarkedOk(Written(s, n, w, io).insts[m]))
  {
    WrittenCases(s, n, w, io);
    hide Written, StatusUpdate, SpecUpdate;
    if WritesStatus(w.pc) {
      StatusKeys(s, n, w.mem, io.fault, m);
    } else if WritesSpec(w.pc) {
      SpecKeys(s, n, w.mem, io.fault, m);
    }
  }

  lemma AfterKeys(s: State, w: EnvWorker, io: Io, m: string)
    requires m in InstancesAfter(s, w, io).insts
    ensures m in s.insts || (Creates(s, w, io) && m == w.pc.todo[0].name && !InstancesAfter(s, w, io).insts[m].deleting)
    ensures m in s.insts && MarkedOk(s.insts[m]) ==> MarkedOk(InstancesAfter(s, w, io).insts[m])
  {
    AfterCases(s, w, io);
    hide InstancesAfter, SpecUpdate, RequestDelete, Merged;
    if Updates(w) {
      SpecKeys(s, w.pc.todo[0].name, Merged(w.pc.existing.value, w.pc.todo[0]), io.fault, m);
    } else if Deletes(s, w, io) {
      DeleteKeys(s, w.pc.names[0], m);
    }
  }

  lemma DeleteKeys(s: State, n: string, m: string)
    requires n in s.insts && m in RequestDelete(s, n).insts
    ensures m in s.insts && (MarkedOk(s.insts[m]) ==> MarkedOk(RequestDelete(s, n).insts[m]))
  {
    DeleteCases(s, n);
    hide RequestDelete, DropInstance, PutInstance;
    DropInstances(s, n, m);
    PutInstances(s, n, s.insts[n].(deleting := true, version := s.next), m);
  }

  lemma OutsideKeys(s: State, ev: Event, m: string)
    requires ev.HandlerWrite? || ev.DeleteInstance? || ev.EditInstance?
    requires m in Step(s, ev).insts
    ensures m in s.insts && (MarkedOk(s.insts[m]) ==> MarkedOk(Step(s, ev).insts[m]))
  {
    hide StatusUpdate, RequestDelete, PutInstance, Do, EnvDo;
    match ev
    case HandlerWrite(id, fault) =>
      if id in s.handlers { StatusKeys(s, s.handlers[id].name, s.handlers[id].copy.(phase := Pending), fault, m); }
    case DeleteInstance(n) =>
      if n in s.insts { DeleteKeys(s, n, m); }
    case EditInstance(n, desired) =>
      if n in s.insts { PutInstances(s, n, s.insts[n].(desired := desired, version := s.next), m); }
  }

  lemma MarkedStays(s: State, ev: Event, m: string)
    requires m in s.insts && m in Step(s, ev).insts && MarkedOk(s.insts[m])
    ensures MarkedOk(Step(s, ev).insts[m])
  {
    hide Step, Do, EnvDo, MarkedOk;
    if AboutNothing(s, ev) {
      NothingHappens(s, ev);
    } else {
      match ev
      case Work(n, io) =>
        WorkEffect(s, n, io);
        hide Written;
        WrittenKeys(s, n, s.workers[n], io, m);
      case EnvWork(e, io) =>
        EnvWorkEffect(s, e, io);
        hide InstancesAfter;
        AfterKeys(s, s.envWorkers[e], io, m);
      case HandlerWrite(id, fault) => OutsideKeys(s, ev, m);
      case DeleteInstance(n) => OutsideKeys(s, ev, m);
      case EditInstance(n, desired) => OutsideKeys(s, ev, m);
      case _ => OthersLeaveInstances(s, ev);
    }
  }
}
