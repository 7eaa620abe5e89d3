/** No live instance outlives the environment it belongs to. */
module Housing {
  import opened Naming
  import opened Cluster
  import opened Safety
  import opened Effects

  // ---------------------------------------------------------------- invariant

  predicate Housed(s: State, e: string, uid: nat) { e in s.envs && s.envs[e].uid == uid && s.envs[e].finalizer }

  predicate NamedAs(s: State, uid: nat, e: string) { uid in s.specs && s.specs[uid].name == e }

  predicate LiveOf(s: State, n: string, uid: nat) {
    n in s.insts && s.insts[n].labels.environment == uid && !s.insts[n].deleting
  }

  predicate Teardown(pc: EnvPc) { pc.ListInstances? || pc.DeleteNext? || pc.EnvRemoveFinalizer? }

  predicate EnvWorkerHoused(s: State, e: string, w: EnvWorker) {
    && NamedAs(s, w.copy.uid, e)
    && w.copy.version < s.next
    && (e in s.envs && s.envs[e].version == w.copy.version ==> s.envs[e] == w.copy)
    && (!w.pc.EnvAddFinalizer? ==> Housed(s, e, w.copy.uid) && w.copy.finalizer)
    && (w.pc.EnvAddFinalizer? ==> !w.copy.deleting)
    && (Teardown(w.pc) ==> w.copy.deleting)
    && (w.pc.DeleteNext? ==> forall n | n in s.insts && LiveOf(s, n, w.copy.uid) :: n in w.pc.names)
    && (w.pc.EnvRemoveFinalizer? ==> forall n | n in s.insts :: !LiveOf(s, n, w.copy.uid))
  }

  predicate EnvOk(s: State, e: string, env: Environment) {
    NamedAs(s, env.uid, e) && env.version < s.next && (env.deleting ==> env.finalizer)
  }

  predicate InstanceHoused(s: State, i: Instance) {
    var uid := i.labels.environment;
    !i.deleting ==> uid in s.specs && Housed(s, s.specs[uid].name, uid)
  }

  predicate HousingInv(s: State) {
    && (forall e | e in s.envs :: EnvOk(s, e, s.envs[e]))
    && (forall e | e in s.envWorkers :: EnvWorkerHoused(s, e, s.envWorkers[e]))
    && (forall n | n in s.insts :: InstanceHoused(s, s.insts[n]))
  }

  // ---------------------------------------------------------------- environments keep their finalizer

  /** The step that gives up environment `e`: the last write of its own teardown. */
  predicate Evicting(s: State, ev: Event, e: string) {
    ev.EnvWork? && ev.e == e && e in s.envWorkers && s.envWorkers[e].pc.EnvRemoveFinalizer?
  }

  lemma EnvUpdateStays(s: State, e: string, env: Environment, f: string, uid: nat)
    requires Housed(s, f, uid) && (e == f ==> env.uid == uid && env.finalizer)
    ensures Housed(EnvUpdate(s, e, env), f, uid)
  {
    if env.deleting && !env.finalizer {
      assert EnvUpdate(s, e, env) == s.(envs := s.envs - {e}, next := s.next + 1);
    } else {
      assert EnvUpdate(s, e, env) == s.(envs := s.envs[e := env.(version := s.next)], next := s.next + 1);
    }
  }

  lemma EnvWorkHouses(s: State, e: string, io: Io, f: string, uid: nat)
    requires HousingInv(s) && Housed(s, f, uid) && e in s.envWorkers && !Evicting(s, EnvWork(e, io), f)
    ensures Housed(Step(s, EnvWork(e, io)), f, uid)
  {
    var w := s.envWorkers[e];
    EnvWorkEffect(s, e, io);
    assert EnvWorkerHoused(s, e, w);
    hide Step, HousingInv;
    if (w.pc.EnvAddFinalizer? || w.pc.EnvRemoveFinalizer?) && EnvAccepts(s, e, w.copy, io.fault) {
      EnvUpdateStays(s, e, w.copy.(finalizer := w.pc.EnvAddFinalizer?), f, uid);
      hide EnvUpdate;
    }
  }

  lemma EnvsOfOthers(s: State, ev: Event)
    requires !ev.EnvWork? && !ev.CreateEnv? && !ev.DeleteEnv? && !ev.EditEnv?
    ensures Step(s, ev).envs == s.envs && Step(s, ev).specs == s.specs
  {
    hide Step, Do, EnvDo, Written, ObjectsAfter, RecordedAfter;
    if AboutNothing(s, ev) {
      NothingHappens(s, ev);
    } else if ev.Work? {
      WorkEffect(s, ev.n, ev.io);
    } else if TouchesInstances(ev) {
      InstanceEventFrame(s, ev);
    } else {
      PassingFrame(s, ev);
    }
  }

  /** A finalized environment stays until its own teardown ends, and the ids that were handed out stay known. */
  lemma EnvStays(s: State, ev: Event, f: string, uid: nat)
    requires HousingInv(s) && Housed(s, f, uid) && !Evicting(s, ev, f)
    ensures Housed(Step(s, ev), f, uid)
  {
    hide HousingInv, Do, EnvDo;
    match ev
    case EnvWork(e, io) => if e in s.envWorkers { EnvWorkHouses(s, e, io, f, uid); }
    case DeleteEnv(e) => if e in s.envs { EnvUpdateStays(s, e, s.envs[e].(deleting := true), f, uid); }
    case EditEnv(e) => if e in s.envs { EnvUpdateStays(s, e, s.envs[e], f, uid); }
    case CreateEnv(e, spec) =>
    case _ => EnvsOfOthers(s, ev);
  }

  lemma SpecsOf(s: State, ev: Event)
    requires !ev.CreateEnv?
    ensures Step(s, ev).specs == s.specs
  {
    hide Step, EnvDo, InstancesAfter, EnvsAfter;
    if AboutNothing(s, ev) {
      NothingHappens(s, ev);
    } else if ev.EnvWork? {
      EnvWorkEffect(s, ev.e, ev.io);
    } else if ev.DeleteEnv? || ev.EditEnv? {
      EnvEventFrame(s, ev);
    } else {
      EnvsOfOthers(s, ev);
    }
  }

  lemma SpecsGrow(s: State, ev: Event, uid: nat)
    requires Inv(s) && uid in s.specs
    ensures uid in Step(s, ev).specs && Step(s, ev).specs[uid] == s.specs[uid]
  {
    hide Inv, Step;
    if ev.CreateEnv? {
      FreshUid(s);
      EnvEventIs(s, ev);
    } else {
      SpecsOf(s, ev);
    }
  }

  lemma NextGrows(s: State, ev: Event)
    ensures Step(s, ev).next >= s.next
  {
    hide Step, Do, EnvDo, Written;
    if AboutNothing(s, ev) {
      NothingHappens(s, ev);
    } else if ev.Work? {
      WorkEffect(s, ev.n, ev.io);
      WrittenFrame(s, ev.n, s.workers[ev.n], ev.io);
    } else if ev.EnvWork? {
      EnvWorkEffect(s, ev.e, ev.io);
    } else if TouchesInstances(ev) {
      InstanceEventFrame(s, ev);
    } else if Passing(ev) {
      PassingFrame(s, ev);
    } else {
      EnvEventFrame(s, ev);
    }
  }

  // ---------------------------------------------------------------- where live instances come from

  predicate SameLabelsIfLive(s: State, s': State, m: string)
    requires m in s'.insts
  {
    !s'.insts[m].deleting ==> m in s.insts && !s.insts[m].deleting && s'.insts[m].labels == s.insts[m].labels
  }

  lemma StatusLive(s: State, n: string, mem: Instance, fault: Fault, m: string)
    requires m in StatusUpdate(s, n, mem, fault).insts
    ensures SameLabelsIfLive(s, StatusUpdate(s, n, mem, fault), m)
  {
    if Accepts(s, n, mem, fault) { PutInstances(s, n, WithStatus(s.insts[n], mem, s.next), m); }
    hide PutInstance;
  }

  lemma SpecLive(s: State, n: string, base: Instance, mem: Instance, fault: Fault, m: string)
    requires Linked(s, n, base) && mem.version == base.version && mem.labels == base.labels
    requires m in SpecUpdate(s, n, mem, fault).insts
    ensures SameLabelsIfLive(s, SpecUpdate(s, n, mem, fault), m)
  {
    SpecCases(s, n, mem, fault);
    hide SpecUpdate, DropInstance, PutInstance;
    if Accepts(s, n, mem, fault) {
      PutInstances(s, n, WithSpec(s.insts[n], mem, s.next), m);
      DropInstances(s, n, m);
    }
  }

  lemma WrittenLive(s: State, n: string, w: Worker, io: Io, m: string)
    requires AtPc(w) && Linked(s, n, w.base) && m in Written(s, n, w, io).insts
    ensures SameLabelsIfLive(s, Written(s, n, w, io), m)
  {
    WrittenCases(s, n, w, io);
    if WritesStatus(w.pc) {
      StatusLive(s, n, w.mem, io.fault, m);
    } else if WritesSpec(w.pc) {
      SpecLive(s, n, w.base, w.mem, io.fault, m);
    }
    hide Written, StatusUpdate, SpecUpdate;
  }

  lemma DeleteLive(s: State, n: string, m: string)
    requires n in s.insts && m in RequestDelete(s, n).insts
    ensures SameLabelsIfLive(s, RequestDelete(s, n), m) && (m == n ==> RequestDelete(s, n).insts[m].deleting)
  {
    DeleteCases(s, n);
    hide RequestDelete, DropInstance, PutInstance;
    DropInstances(s, n, m);
    PutInstances(s, n, s.insts[n].(deleting := true, version := s.next), m);
  }

  lemma AfterLive(s: State, w: EnvWorker, io: Io, m: string)
    requires EnvWorkerOk(s, w) && m in InstancesAfter(s, w, io).insts
    ensures SameLabelsIfLive(s, InstancesAfter(s, w, io), m)
         || (Creates(s, w, io) && m == w.pc.todo[0].name && InstancesAfter(s, w, io).insts[m].labels == w.pc.todo[0].labels)
  {
    AfterCases(s, w, io);
    if Updates(w) {
      var d := w.pc.todo[0];
      SpecLive(s, d.name, w.pc.existing.value, Merged(w.pc.existing.value, d), io.fault, m);
      hide EnvWorkerOk, InstancesAfter, SpecUpdate;
    } else if Creates(s, w, io) {
      hide EnvWorkerOk, InstancesAfter;
    } else if Deletes(s, w, io) {
      DeleteLive(s, w.pc.names[0], m);
      hide EnvWorkerOk, InstancesAfter, RequestDelete;
    }
  }

  lemma OutsideLive(s: State, ev: Event, m: string)
    requires ev.HandlerWrite? || ev.DeleteInstance? || ev.EditInstance?
    requires m in Step(s, ev).insts
    ensures SameLabelsIfLive(s, Step(s, ev), m)
  {
    hide StatusUpdate, RequestDelete, PutInstance, Do, EnvDo;
    match ev
    case HandlerWrite(id, fault) =>
      if id in s.handlers { StatusLive(s, s.handlers[id].name, s.handlers[id].copy.(phase := Pending), fault, m); }
    case DeleteInstance(n) =>
      if n in s.insts { DeleteLive(s, n, m); }
    case EditInstance(n, desired) =>
      if n in s.insts { PutInstances(s, n, s.insts[n].(desired := desired, version := s.next), m); }
  }

  predicate Created(s: State, ev: Event, m: string) {
    && ev.EnvWork? && ev.e in s.envWorkers && Creates(s, s.envWorkers[ev.e], ev.io)
    && m == s.envWorkers[ev.e].pc.todo[0].name
    && m in Step(s, ev).insts && Step(s, ev).insts[m].labels == s.envWorkers[ev.e].pc.todo[0].labels
  }

  lemma LiveOrigin(s: State, ev: Event, m: string)
    requires Inv(s) && m in Step(s, ev).insts
    ensures SameLabelsIfLive(s, Step(s, ev), m) || Created(s, ev, m)
  {
    if ev.Work? {
      if ev.n in s.workers {
        WorkEffect(s, ev.n, ev.io);
        WorkerFacts(s, ev.n);
        WrittenLive(s, ev.n, s.workers[ev.n], ev.io, m);
      }
      hide Step, Inv, Do, Written;
    } else if ev.EnvWork? {
      if ev.e in s.envWorkers {
        EnvWorkEffect(s, ev.e, ev.io);
        EnvWorkerFacts(s, ev.e);
        AfterLive(s, s.envWorkers[ev.e], ev.io, m);
      }
      hide Step, Inv, EnvDo, InstancesAfter;
    } else if TouchesInstances(ev) {
      OutsideLive(s, ev, m);
      hide Step, Inv;
    } else {
      OthersLeaveInstances(s, ev);
      hide Step, Inv;
    }
  }

  // ---------------------------------------------------------------- every step

  /** An environment is what it was, or has a new version. */
  predicate Renewed(s: State, t: State, e: string)
    requires e in t.envs
  {
    (e in s.envs && t.envs[e] == s.envs[e]) || t.envs[e].version >= s.next
  }

  lemma EnvUpdateChange(s: State, f: string, env: Environment, e: string)
    requires e in EnvUpdate(s, f, env).envs
    ensures (e in s.envs && EnvUpdate(s, f, env).envs[e] == s.envs[e]) || EnvUpdate(s, f, env).envs[e].version >= s.next
  {
    if env.deleting && !env.finalizer {
      assert EnvUpdate(s, f, env) == s.(envs := s.envs - {f}, next := s.next + 1);
    } else {
      assert EnvUpdate(s, f, env) == s.(envs := s.envs[f := env.(version := s.next)], next := s.next + 1);
    }
  }

  lemma OwnEnvChange(s: State, f: string, io: Io, e: string)
    requires f in s.envWorkers && e in Step(s, EnvWork(f, io)).envs
    ensures Renewed(s, Step(s, EnvWork(f, io)), e)
  {
    var w := s.envWorkers[f];
    EnvWorkEffect(s, f, io);
    hide Step, EnvUpdate, EnvDo;
    if EnvsAfter(s, f, w, io) != s {
      EnvUpdateChange(s, f, w.copy.(finalizer := w.pc.EnvAddFinalizer?), e);
    }
  }

  lemma EditedEnvChange(s: State, ev: Event, e: string)
    requires (ev.DeleteEnv? || ev.EditEnv?) && e in Step(s, ev).envs
    ensures Renewed(s, Step(s, ev), e)
  {
    hide EnvUpdate;
    if ev.e in s.envs {
      var env := if ev.DeleteEnv? then s.envs[ev.e].(deleting := true) else s.envs[ev.e];
      if e in EnvUpdate(s, ev.e, env).envs { EnvUpdateChange(s, ev.e, env, e); }
    }
  }

  /** A stored environment is either untouched or carries a version nobody has seen. */
  lemma CreatedEnvChange(s: State, ev: Event, e: string)
    requires ev.CreateEnv? && e in Step(s, ev).envs
    ensures Renewed(s, Step(s, ev), e)
  {
    hide Step;
    EnvEventIs(s, ev);
  }

  lemma NotRenewed(s: State, t: State, e: string)
    requires t.envs == s.envs && e in s.envs
    ensures Renewed(s, t, e)
  {
  }

  lemma EnvChange(s: State, ev: Event, e: string)
    requires e in Step(s, ev).envs
    ensures Renewed(s, Step(s, ev), e)
  {
    hide Step, EnvUpdate, Do, EnvDo, Renewed;
    if AboutNothing(s, ev) {
      NothingHappens(s, ev);
      NotRenewed(s, s, e);
    } else if ev.EnvWork? {
      OwnEnvChange(s, ev.e, ev.io, e);
    } else if ev.DeleteEnv? || ev.EditEnv? {
      EditedEnvChange(s, ev, e);
    } else if ev.CreateEnv? {
      CreatedEnvChange(s, ev, e);
    } else {
      EnvsOfOthers(s, ev);
      NotRenewed(s, Step(s, ev), e);
    }
  }

  lemma EnvUpdateOk(s: State, f: string, env: Environment, e: string)
    requires e in EnvUpdate(s, f, env).envs && NamedAs(s, env.uid, f)
    requires e in s.envs ==> EnvOk(s, e, s.envs[e])
    ensures EnvOk(EnvUpdate(s, f, env), e, EnvUpdate(s, f, env).envs[e])
  {
    if env.deleting && !env.finalizer {
      assert EnvUpdate(s, f, env) == s.(envs := s.envs - {f}, next := s.next + 1);
    } else {
      assert EnvUpdate(s, f, env) == s.(envs := s.envs[f := env.(version := s.next)], next := s.next + 1);
    }
  }

  lemma EnvsAfterOk(s: State, f: string, w: EnvWorker, io: Io, e: string)
    requires NamedAs(s, w.copy.uid, f) && (e in s.envs ==> EnvOk(s, e, s.envs[e]))
    requires e in EnvsAfter(s, f, w, io).envs
    ensures EnvOk(EnvsAfter(s, f, w, io), e, EnvsAfter(s, f, w, io).envs[e])
  {
    hide EnvUpdate, EnvOk;
    if (w.pc.EnvAddFinalizer? || w.pc.EnvRemoveFinalizer?) && EnvAccepts(s, f, w.copy, io.fault) {
      EnvUpdateOk(s, f, w.copy.(finalizer := w.pc.EnvAddFinalizer?), e);
    }
  }

  lemma NextAfterEnvWrite(s: State, f: string, io: Io)
    requires f in s.envWorkers
    ensures var s' := Step(s, EnvWork(f, io)); var env := EnvsAfter(s, f, s.envWorkers[f], io);
            s'.next >= env.next && s'.envs == env.envs && s'.specs == env.specs
  {
    var w := s.envWorkers[f];
    EnvWorkEffect(s, f, io);
    EnvDoIs(s, f, w, io);
    AfterFrame(s, w, io);
    EnvUpdateFrame(s, f, w.copy.(finalizer := w.pc.EnvAddFinalizer?));
    hide EnvDo, InstancesAfter, EnvUpdate;
    var (s1, o) := EnvDo(s, f, w, io);
    if o.Some? {
      assert Step(s, EnvWork(f, io)).next == s1.next;
    } else {
      assert Step(s, EnvWork(f, io)).next == s1.next;
    }
    hide Step;
  }

  lemma EnvWorkOkHere(s: State, f: string, io: Io, e: string)
    requires HousingInv(s) && f in s.envWorkers && e in Step(s, EnvWork(f, io)).envs
    ensures EnvOk(Step(s, EnvWork(f, io)), e, Step(s, EnvWork(f, io)).envs[e])
  {
    var w := s.envWorkers[f];
    assert EnvWorkerHoused(s, f, w);
    if e in s.envs { assert EnvOk(s, e, s.envs[e]); }
    NextAfterEnvWrite(s, f, io);
    hide HousingInv, Step, EnvsAfter;
    EnvsAfterOk(s, f, w, io, e);
  }

  lemma EnvOkStays(s: State, ev: Event, e: string)
    requires Inv(s) && HousingInv(s) && e in Step(s, ev).envs
    ensures EnvOk(Step(s, ev), e, Step(s, ev).envs[e])
  {
    hide Run, Do, Inv, AtPc, Cluster.StatusUpdate, SpecUpdate, Cluster.EnvUpdate;
    if e in s.envs {
      assert EnvOk(s, e, s.envs[e]);
      SpecsGrow(s, ev, s.envs[e].uid);
    }
    NextGrows(s, ev);
    hide Do, EnvDo, Inv;
    if ev.EnvWork? {
      if ev.e in s.envWorkers { EnvWorkOkHere(s, ev.e, ev.io, e); }
      hide Step, HousingInv;
    } else if ev.DeleteEnv? || ev.EditEnv? {
      if ev.e in s.envs {
        assert EnvOk(s, ev.e, s.envs[ev.e]);
        var env := if ev.DeleteEnv? then s.envs[ev.e].(deleting := true) else s.envs[ev.e];
        if e in EnvUpdate(s, ev.e, env).envs { EnvUpdateOk(s, ev.e, env, e); }
      }
      hide HousingInv, EnvUpdate;
    } else if ev.CreateEnv? {
      hide HousingInv;
    } else {
      EnvsOfOthers(s, ev);
      hide Step, HousingInv;
    }
  }

  lemma EnvWorkerNamed(s: State, e: string)
    requires HousingInv(s) && e in s.envWorkers
    ensures NamedAs(s, s.envWorkers[e].copy.uid, e)
    ensures !s.envWorkers[e].pc.EnvAddFinalizer? ==> Housed(s, e, s.envWorkers[e].copy.uid)
  {
    assert EnvWorkerHoused(s, e, s.envWorkers[e]);
  }

  lemma NoneLiveAtTheEnd(s: State, e: string, uid: nat, m: string)
    requires HousingInv(s) && e in s.envWorkers && s.envWorkers[e].pc.EnvRemoveFinalizer? && Housed(s, e, uid)
    ensures !LiveOf(s, m, uid)
  {
    assert EnvWorkerHoused(s, e, s.envWorkers[e]);
  }

  lemma InstanceIsHoused(s: State, m: string)
    requires HousingInv(s) && m in s.insts
    ensures InstanceHoused(s, s.insts[m])
  {
  }

  /** A new instance is labelled with the environment whose worker creates it. */
  lemma CreatedLabel(s: State, ev: Event, m: string)
    requires Inv(s) && Created(s, ev, m)
    ensures Step(s, ev).insts[m].labels.environment == s.envWorkers[ev.e].copy.uid
    ensures s.envWorkers[ev.e].pc.SaveWrite?
  {
    EnvWorkerFacts(s, ev.e);
    hide Inv, Step, EnvDo;
    var w := s.envWorkers[ev.e];
    assert DraftOk(w.copy, w.pc.todo[0]);
  }

  lemma HouseStays(s: State, ev: Event, m: string)
    requires Inv(s) && HousingInv(s) && m in Step(s, ev).insts && !Step(s, ev).insts[m].deleting
    ensures InstanceHoused(Step(s, ev), Step(s, ev).insts[m])
  {
    hide HousingInv, Inv, Step, Creates;
    var s' := Step(s, ev);
    var uid := s'.insts[m].labels.environment;
    LiveOrigin(s, ev, m);
    if SameLabelsIfLive(s, s', m) {
      InstanceIsHoused(s, m);
    } else {
      CreatedLabel(s, ev, m);
      EnvWorkerNamed(s, ev.e);
    }
    var e := s.specs[uid].name;
    SpecsGrow(s, ev, uid);
    if Evicting(s, ev, e) {
      NoneLiveAtTheEnd(s, e, uid, m);
    } else {
      EnvStays(s, ev, e, uid);
    }
  }

  /** Whoever else acts, the instances a teardown still has to reach do not grow. */
  lemma NoNewLive(s: State, ev: Event, e: string, m: string)
    requires Inv(s) && HousingInv(s) && e in s.envWorkers && !(ev.EnvWork? && ev.e == e)
    requires m in Step(s, ev).insts && LiveOf(Step(s, ev), m, s.envWorkers[e].copy.uid)
    ensures LiveOf(s, m, s.envWorkers[e].copy.uid)
  {
    hide HousingInv, Inv, Step, Creates;
    LiveOrigin(s, ev, m);
    if !SameLabelsIfLive(s, Step(s, ev), m) {
      EnvWorkerNamed(s, e);
      EnvWorkerNamed(s, ev.e);
      CreatedLabel(s, ev, m);
    }
  }

  lemma EnvWorkerIsHoused(s: State, e: string)
    requires HousingInv(s) && e in s.envWorkers
    ensures EnvWorkerHoused(s, e, s.envWorkers[e])
  {
  }

  lemma OtherWorkerHoused(s: State, ev: Event, e: string)
    requires Inv(s) && HousingInv(s) && e in s.envWorkers && !(ev.EnvWork? && ev.e == e)
    ensures EnvWorkerHoused(Step(s, ev), e, s.envWorkers[e])
  {
    hide Step, Inv, HousingInv;
    var s' := Step(s, ev);
    var w := s.envWorkers[e];
    EnvWorkerIsHoused(s, e);
    SpecsGrow(s, ev, w.copy.uid);
    NextGrows(s, ev);
    if e in s'.envs { EnvChange(s, ev, e); }
    if !w.pc.EnvAddFinalizer? { EnvStays(s, ev, e, w.copy.uid); }
    forall n | n in s'.insts && LiveOf(s', n, w.copy.uid) ensures LiveOf(s, n, w.copy.uid) { NoNewLive(s, ev, e, n); }
  }

  lemma NewWorkerHoused(s: State, e: string)
    requires HousingInv(s) && e !in s.envWorkers && e in s.envs && FirstEnvPc(s.envs[e]).Some?
    ensures EnvWorkerHoused(Step(s, EnvBegin(e)), e, EnvWorker(FirstEnvPc(s.envs[e]).value, s.envs[e]))
  {
    hide Run;
    assert EnvOk(s, e, s.envs[e]);
  }

  // ---------------------------------------------------------------- the worker's own steps

  lemma FinalizerAdded(s: State, e: string, w: EnvWorker, io: Io)
    requires w.pc.EnvAddFinalizer? && EnvDo(s, e, w, io).1.Some?
    ensures var env := w.copy.(finalizer := true, version := s.next);
            && EnvAccepts(s, e, w.copy, io.fault) && EnvDo(s, e, w, io).1 == Some(EnvWorker(ListPulls, env))
            && EnvDo(s, e, w, io).0 == s.(envs := s.envs[e := env], next := s.next + 1)
  {
    var env := w.copy.(finalizer := true);
    assert EnvUpdate(s, e, env) == s.(envs := s.envs[e := env.(version := s.next)], next := s.next + 1);
  }

  lemma OwnWrite(s: State, e: string, io: Io)
    requires HousingInv(s) && e in s.envWorkers && s.envWorkers[e].pc.EnvAddFinalizer?
    ensures var s' := Step(s, EnvWork(e, io));
            e in s'.envWorkers ==> EnvWorkerHoused(s', e, s'.envWorkers[e])
  {
    hide Step, EnvUpdate, EnvDo, SetEnvWorker;
    var w := s.envWorkers[e];
    assert EnvWorkerHoused(s, e, w);
    hide HousingInv;
    var (s1, o) := EnvDo(s, e, w, io);
    EnvStepIs(s, e, io);
    EnvWorkerSet(s1, e, o);
    if o.Some? { FinalizerAdded(s, e, w, io); }
  }

  lemma OwnAfterDelete(s: State, e: string, names: seq<string>, io: Io, n: string)
    requires Inv(s) && HousingInv(s) && e in s.envWorkers && s.envWorkers[e].pc == DeleteNext(names) && names != []
    requires e in Step(s, EnvWork(e, io)).envWorkers
    requires LiveOf(Step(s, EnvWork(e, io)), n, s.envWorkers[e].copy.uid)
    ensures n in names[1..]
  {
    hide Inv, AtPc, WorkerOk;
    var w := s.envWorkers[e];
    var s' := Step(s, EnvWork(e, io));
    EnvWorkEffect(s, e, io);
    assert EnvWorkerHoused(s, e, w);
    AfterCases(s, w, io);
    hide HousingInv, Inv, Step, InstancesAfter;
    assert Deletes(s, w, io);
    DeleteLive(s, names[0], n);
    hide RequestDelete;
    assert LiveOf(s, n, w.copy.uid) && n != names[0];
    assert n in names;
  }

  lemma OwnQuiet(s: State, e: string, io: Io)
    requires Inv(s) && HousingInv(s) && e in s.envWorkers && !s.envWorkers[e].pc.EnvAddFinalizer?
    requires e in Step(s, EnvWork(e, io)).envWorkers
    ensures var s' := Step(s, EnvWork(e, io)); var w' := s'.envWorkers[e];
            && w'.copy == s.envWorkers[e].copy && s'.envs == s.envs && s'.specs == s.specs && s'.next >= s.next
            && NextEnvPc(s, s.envWorkers[e].pc, io, w'.pc)
  {
    EnvWorkEffect(s, e, io);
    EnvPcMoves(s, e, s.envWorkers[e], io);
    hide Step, HousingInv, Inv, EnvDo;
  }

  predicate NextEnvPc(s: State, pc: EnvPc, io: Io, next: EnvPc) {
    match pc
    case ListInstances => next == pc || (next == DeleteNext(io.names) && (set n | n in io.names) == s.insts.Keys)
    case DeleteNext(names) => if names == [] then next.EnvRemoveFinalizer? else next == DeleteNext(names[1..])
    case EnvRemoveFinalizer => false
    case EnvAddFinalizer => true
    case _ => !Teardown(next) && !next.EnvAddFinalizer?
  }

  lemma EnvPcMoves(s: State, e: string, w: EnvWorker, io: Io)
    requires !w.pc.EnvAddFinalizer?
    ensures var o := EnvDo(s, e, w, io).1;
            o.Some? ==> o.value.copy == w.copy && NextEnvPc(s, w.pc, io, o.value.pc)
  {
    hide SpecUpdate, EnvUpdate, CreateInstance, RequestDelete, Accepts, EnvAccepts, Merged, PullDrafts, BranchDrafts;
  }

  lemma OwnWorkerHoused(s: State, e: string, io: Io)
    requires Inv(s) && HousingInv(s) && e in s.envWorkers && e in Step(s, EnvWork(e, io)).envWorkers
    ensures EnvWorkerHoused(Step(s, EnvWork(e, io)), e, Step(s, EnvWork(e, io)).envWorkers[e])
  {
    hide Do, EnvDo, Inv;
    var s' := Step(s, EnvWork(e, io));
    var w := s.envWorkers[e];
    if w.pc.EnvAddFinalizer? {
      OwnWrite(s, e, io);
    } else {
      var w' := s'.envWorkers[e];
      assert EnvWorkerHoused(s, e, w);
      OwnQuiet(s, e, io);
      EnvWorkEffect(s, e, io);
      forall n | n in s'.insts && LiveOf(s', n, w.copy.uid) && w.pc.DeleteNext? && w.pc.names != [] ensures n in w.pc.names[1..] {
        OwnAfterDelete(s, e, w.pc.names, io, n);
      }
      hide Step, HousingInv, Inv;
      if w.pc.DeleteNext? && w.pc.names == [] {
        assert s'.insts == s.insts;
      } else if w.pc.ListInstances? {
        assert s'.insts == s.insts;
        assert forall n | n in s.insts :: n in s.insts.Keys && (w'.pc.DeleteNext? ==> n in (set m | m in io.names));
      }
    }
  }

  lemma StepHousing(s: State, ev: Event)
    requires Inv(s) && HousingInv(s)
    ensures HousingInv(Step(s, ev))
  {
    hide Do, EnvDo, Inv;
    var s' := Step(s, ev);
    forall e | e in s'.envs ensures EnvOk(s', e, s'.envs[e]) { EnvOkStays(s, ev, e); }
    forall n | n in s'.insts ensures InstanceHoused(s', s'.insts[n]) {
      if !s'.insts[n].deleting { HouseStays(s, ev, n); }
    }
    forall e | e in s'.envWorkers ensures EnvWorkerHoused(s', e, s'.envWorkers[e]) {
      if ev.EnvWork? && ev.e == e && e in s.envWorkers {
        OwnWorkerHoused(s, e, ev.io);
      } else {
        EnvWorkersStay(s, ev, e);
        if e in s.envWorkers { OtherWorkerHoused(s, ev, e); } else { NewWorkerHoused(s, e); }
      }
    }
    hide Step, Inv;
  }

  lemma {:induction false} RunHousing(now: nat, evs: seq<Event>)
    ensures HousingInv(Run(Init(now), evs))
  {
    if evs != [] {
      var front := evs[..|evs| - 1];
      RunHousing(now, front);
      RunOk(now, front);
      StepHousing(Run(Init(now), front), evs[|evs| - 1]);
    }
  }

  lemma HousedAtEnd(now: nat, evs: seq<Event>, n: string)
    requires n in Run(Init(now), evs).insts && !Run(Init(now), evs).insts[n].deleting
    ensures var s := Run(Init(now), evs); var uid := s.insts[n].labels.environment;
            exists e :: e in s.envs && s.envs[e].uid == uid && s.envs[e].finalizer
  {
    RunHousing(now, evs);
    var s := Run(Init(now), evs);
    assert InstanceHoused(s, s.insts[n]);
    var uid := s.insts[n].labels.environment;
    assert Housed(s, s.specs[uid].name, uid);
  }

  lemma NoneLiveAtEnd(now: nat, evs: seq<Event>, e: string, n: string)
    requires e in Run(Init(now), evs).envWorkers && Run(Init(now), evs).envWorkers[e].pc.EnvRemoveFinalizer?
    requires n in Run(Init(now), evs).insts
    requires Run(Init(now), evs).insts[n].labels.environment == Run(Init(now), evs).envWorkers[e].copy.uid
    ensures Run(Init(now), evs).insts[n].deleting
  {
    RunHousing(now, evs);
    var s := Run(Init(now), evs);
    assert EnvWorkerHoused(s, e, s.envWorkers[e]);
  }
}
