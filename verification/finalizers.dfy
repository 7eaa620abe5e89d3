/** The finalizer protocol: no cluster object outlives the instance it was made for. */
module Finalizers {
  import opened Text
  import opened Naming
  import opened Versions
  import opened Cluster
  import opened Safety
  import opened Effects

  // ---------------------------------------------------------------- the runs it holds for

  /** Cleanup gets to delete what it asks to delete, is not cut off between the proxy's Deployment and
      Ingress, nobody else removes objects, and no branch produces a name that reads like a proxy's. */
  predicate Fair(s: State, ev: Event) {
    match ev
    case Work(n, io) => n in s.workers && s.workers[n].pc.Del? ==> io.fault.Done?
    case Crash(n) => n in s.workers ==> s.workers[n].pc != Del(3) && s.workers[n].pc != Del(4)
    case EnvWork(e, io) =>
      e in s.envWorkers ==> forall b | b in io.branches :: !EndsWith(BranchName(s.envWorkers[e].copy.spec, b), PROXY_SUFFIX)
    case LoseObject(_) => false
    case _ => true
  }

  predicate FairRun(s: State, evs: seq<Event>) {
    forall i | 0 <= i < |evs| :: Fair(Run(s, evs[..i]), evs[i])
  }

  // ---------------------------------------------------------------- invariant

  predicate Has(s: State, k: Slot, n: string) { SlotKey(k, n) in s.objects }

  /** Which of the six objects of `n` exist. */
  function Present(s: State, n: string): (h: seq<bool>)
    ensures |h| == 6 && forall k: Slot :: h[k] == Has(s, k, n)
  {
    [Has(s, 0, n), Has(s, 1, n), Has(s, 2, n), Has(s, 3, n), Has(s, 4, n), Has(s, 5, n)]
  }

  /** The proxy's objects exist only as a prefix of Deployment, Service, Ingress. */
  predicate Closed(h: seq<bool>)
    requires |h| == 6
  {
    (h[4] ==> h[3]) && (h[3] ==> h[2])
  }

  predicate ShapeAt(pc: Option<Pc>, h: seq<bool>)
    requires |h| == 6
  {
    match pc
    case Some(Del(k)) => (forall j | 0 <= j < k :: !h[j]) && (k <= 2 ==> Closed(h)) && (k == 3 ==> (h[4] ==> h[3]))
    case Some(RemoveFinalizer) => forall j | 0 <= j < 6 :: !h[j]
    case Some(Put(k)) => Closed(h) && (k == 3 ==> h[2]) && (k == 4 ==> h[2] && h[3])
    case _ => Closed(h)
  }

  function PcOf(s: State, n: string): Option<Pc> { if n in s.workers then Some(s.workers[n].pc) else None }

  predicate Shape(s: State, n: string) { ShapeAt(PcOf(s, n), Present(s, n)) }

  predicate Finalized(s: State, n: string) { n in s.insts && s.insts[n].finalizer }

  predicate NamesOk(s: State) {
    && (forall n | n in s.insts :: !EndsWith(n, PROXY_SUFFIX))
    && (forall n | n in s.workers :: !EndsWith(n, PROXY_SUFFIX))
    && (forall e, d | e in s.envWorkers && d in Drafts(s.envWorkers[e].pc) :: !EndsWith(d.name, PROXY_SUFFIX))
  }

  predicate Held(s: State) { forall n | n in s.workers && !s.workers[n].pc.AddFinalizer? :: Finalized(s, n) }

  predicate Owned(s: State) { forall key | key in s.objects :: Finalized(s, OwnerName(key.name)) }

  predicate Shaped(s: State) { forall n | n in s.insts :: Shape(s, n) }

  predicate FinalizerInv(s: State) { NamesOk(s) && Held(s) && Owned(s) && Shaped(s) }

  // ---------------------------------------------------------------- instances keep their finalizer

  /** The step that gives up instance `n`: the last write of its own cleanup. */
  predicate Releasing(s: State, ev: Event, n: string) {
    ev.Work? && ev.n == n && n in s.workers && s.workers[n].pc.RemoveFinalizer?
  }

  lemma StatusStays(s: State, n: string, mem: Instance, fault: Fault, m: string)
    requires Finalized(s, m)
    ensures var s' := StatusUpdate(s, n, mem, fault); Finalized(s', m) && s'.insts[m].deleting == s.insts[m].deleting
  {
    if Accepts(s, n, mem, fault) {
      PutInstances(s, n, WithStatus(s.insts[n], mem, s.next), m);
    }
    hide PutInstance;
  }

  lemma SpecStays(s: State, n: string, base: Instance, mem: Instance, fault: Fault, m: string)
    requires Finalized(s, m) && Linked(s, n, base) && mem.version == base.version
    requires base.finalizer ==> mem.finalizer
    ensures var s' := SpecUpdate(s, n, mem, fault); Finalized(s', m) && s'.insts[m].deleting == s.insts[m].deleting
  {
    SpecCases(s, n, mem, fault);
    hide SpecUpdate;
    if Accepts(s, n, mem, fault) {
      PutInstances(s, n, WithSpec(s.insts[n], mem, s.next), m);
      DropInstances(s, n, m);
      hide DropInstance, PutInstance;
      if m == n { assert s.insts[n] == base; }
    }
  }

  lemma DeleteStays(s: State, n: string, m: string)
    requires Finalized(s, m) && n in s.insts
    ensures var s' := RequestDelete(s, n); Finalized(s', m) && (s.insts[m].deleting ==> s'.insts[m].deleting)
  {
    DeleteCases(s, n);
    hide RequestDelete, DropInstance, PutInstance;
    DropInstances(s, n, m);
    PutInstances(s, n, s.insts[n].(deleting := true, version := s.next), m);
  }

  lemma AfterStays(s: State, w: EnvWorker, io: Io, m: string)
    requires Finalized(s, m) && EnvWorkerOk(s, w)
    ensures var s' := InstancesAfter(s, w, io); Finalized(s', m) && (s.insts[m].deleting ==> s'.insts[m].deleting)
  {
    AfterCases(s, w, io);
    if Updates(w) {
      var d := w.pc.todo[0];
      SpecStays(s, d.name, w.pc.existing.value, Merged(w.pc.existing.value, d), io.fault, m);
    } else if Deletes(s, w, io) {
      DeleteStays(s, w.pc.names[0], m);
    }
    hide EnvWorkerOk, InstancesAfter, SpecUpdate, RequestDelete;
  }

  lemma EnvWorkStays(s: State, e: string, io: Io, m: string)
    requires Inv(s) && Finalized(s, m) && e in s.envWorkers
    ensures var s' := Step(s, EnvWork(e, io)); Finalized(s', m) && (s.insts[m].deleting ==> s'.insts[m].deleting)
  {
    EnvWorkEffect(s, e, io);
    EnvWorkerFacts(s, e);
    AfterStays(s, s.envWorkers[e], io, m);
    hide Step, Inv, InstancesAfter, EnvWorkerOk;
  }

  lemma ReleaseStays(s: State, n: string, mem: Instance, fault: Fault, m: string)
    requires Finalized(s, m) && n != m
    ensures var s' := SpecUpdate(s, n, mem, fault); Finalized(s', m) && s'.insts[m].deleting == s.insts[m].deleting
  {
    SpecCases(s, n, mem, fault);
    hide SpecUpdate, DropInstance, PutInstance;
    if Accepts(s, n, mem, fault) {
      DropInstances(s, n, m);
      PutInstances(s, n, WithSpec(s.insts[n], mem, s.next), m);
    }
  }

  lemma WrittenStays(s: State, n: string, w: Worker, io: Io, m: string)
    requires Finalized(s, m) && AtPc(w) && Linked(s, n, w.base) && !(n == m && w.pc.RemoveFinalizer?)
    ensures var s' := Written(s, n, w, io); Finalized(s', m) && s'.insts[m].deleting == s.insts[m].deleting
  {
    hide StatusUpdate, SpecUpdate;
    WrittenCases(s, n, w, io);
    if WritesStatus(w.pc) {
      StatusStays(s, n, w.mem, io.fault, m);
      hide Written;
    } else if w.pc.AddFinalizer? || w.pc.WriteHash? {
      SpecStays(s, n, w.base, w.mem, io.fault, m);
      hide Written;
    } else if w.pc.RemoveFinalizer? {
      ReleaseStays(s, n, w.mem, io.fault, m);
      hide Written;
    }
  }

  lemma WorkStays(s: State, n: string, io: Io, m: string)
    requires Inv(s) && Finalized(s, m) && n in s.workers && !Releasing(s, Work(n, io), m)
    ensures var s' := Step(s, Work(n, io)); Finalized(s', m) && s'.insts[m].deleting == s.insts[m].deleting
  {
    WorkEffect(s, n, io);
    WorkerFacts(s, n);
    WrittenStays(s, n, s.workers[n], io, m);
    hide Step, Inv, Written, AtPc, WorkerOk;
  }

  lemma OutsideStays(s: State, ev: Event, m: string)
    requires Finalized(s, m) && (ev.HandlerWrite? || ev.DeleteInstance? || ev.EditInstance?)
    ensures var s' := Step(s, ev); Finalized(s', m) && (s.insts[m].deleting ==> s'.insts[m].deleting)
  {
    hide StatusUpdate, RequestDelete, PutInstance;
    match ev
    case HandlerWrite(id, fault) =>
      if id in s.handlers { StatusStays(s, s.handlers[id].name, s.handlers[id].copy.(phase := Pending), fault, m); }
    case DeleteInstance(n) =>
      if n in s.insts { DeleteStays(s, n, m); }
    case EditInstance(n, desired) =>
      if n in s.insts { PutInstances(s, n, s.insts[n].(desired := desired, version := s.next), m); }
  }

  /** A finalized instance stays, finalized, until its own cleanup has removed everything. */
  lemma InstanceStays(s: State, ev: Event, m: string)
    requires Inv(s) && Finalized(s, m) && !Releasing(s, ev, m)
    ensures var s' := Step(s, ev); Finalized(s', m) && (s.insts[m].deleting ==> s'.insts[m].deleting)
  {
    hide Inv, Do, EnvDo;
    match ev
    case Work(n, io) => if n in s.workers { WorkStays(s, n, io, m); }
    case EnvWork(e, io) => if e in s.envWorkers { EnvWorkStays(s, e, io, m); }
    case HandlerWrite(id, fault) => OutsideStays(s, ev, m);
    case DeleteInstance(n) => OutsideStays(s, ev, m);
    case EditInstance(n, desired) => OutsideStays(s, ev, m);
    case _ =>
      OthersLeaveInstances(s, ev);
      hide Step;
  }

  // ---------------------------------------------------------------- names

  lemma PullNamesOk(env: Environment, pulls: seq<PullRequest>, d: Draft)
    requires d in PullDrafts(env, pulls)
    ensures !EndsWith(d.name, PROXY_SUFFIX)
  {
    var i :| 0 <= i < |pulls| && PullDrafts(env, pulls)[i] == d;
    PullRequestNameIsNotProxy(env.spec, pulls[i].number);
  }

  lemma BranchNamesOk(env: Environment, branches: seq<string>, d: Draft)
    requires forall b | b in branches :: !EndsWith(BranchName(env.spec, b), PROXY_SUFFIX)
    requires d in BranchDrafts(env, branches)
    ensures !EndsWith(d.name, PROXY_SUFFIX)
  {
    var i :| 0 <= i < |branches| && BranchDrafts(env, branches)[i] == d;
    assert branches[i] in branches;
  }

  predicate DraftNames(pc: EnvPc) { forall d | d in Drafts(pc) :: !EndsWith(d.name, PROXY_SUFFIX) }

  lemma DraftNamesStay(s: State, e: string, w: EnvWorker, io: Io)
    requires DraftNames(w.pc)
    requires forall b | b in io.branches :: !EndsWith(BranchName(w.copy.spec, b), PROXY_SUFFIX)
    ensures var o := EnvDo(s, e, w, io).1; o.Some? ==> DraftNames(o.value.pc)
  {
    hide SpecUpdate, EnvUpdate, CreateInstance, RequestDelete, Accepts, EnvAccepts, Merged, EndsWith, PullDrafts, BranchDrafts;
    var o := EnvDo(s, e, w, io).1;
    if o.Some? {
      match w.pc
      case ListPulls => forall d | d in Drafts(o.value.pc) ensures !EndsWith(d.name, PROXY_SUFFIX) { PullNamesOk(w.copy, io.pulls, d); }
      case ListBranches(found) =>
        forall d | d in Drafts(o.value.pc) ensures !EndsWith(d.name, PROXY_SUFFIX) {
          if d !in found { BranchNamesOk(w.copy, io.branches, d); }
        }
      case SaveRead(todo) =>
      case SaveWrite(todo, existing) =>
      case _ =>
    }
  }

  lemma NamesStay(s: State, ev: Event)
    requires NamesOk(s) && Fair(s, ev)
    ensures NamesOk(Step(s, ev))
  {
    var s' := Step(s, ev);
    forall n | n in s'.insts ensures !EndsWith(n, PROXY_SUFFIX) {
      if n !in s.insts {
        NewInstances(s, ev, n);
        var w := s.envWorkers[ev.e];
        assert w.pc.todo[0] in Drafts(w.pc);
      }
    }
    forall n | n in s'.workers ensures !EndsWith(n, PROXY_SUFFIX) {
      if n !in s.workers { WorkerComes(s, ev, n); }
    }
    forall e, d | e in s'.envWorkers && d in Drafts(s'.envWorkers[e].pc) ensures !EndsWith(d.name, PROXY_SUFFIX) {
      if ev.EnvWork? && ev.e == e {
        EnvWorkEffect(s, e, ev.io);
        assert DraftNames(s.envWorkers[e].pc);
        DraftNamesStay(s, e, s.envWorkers[e], ev.io);
      } else {
        EnvWorkersStay(s, ev, e);
      }
    }
  }

  lemma WorkerComes(s: State, ev: Event, n: string)
    requires n in Step(s, ev).workers && n !in s.workers
    ensures ev == Begin(n) && n in s.insts
  {
    hide Do, EnvDo;
    if ev != Begin(n) && !(ev.Work? && ev.n == n) { WorkersStay(s, ev, n); }
  }

  // ---------------------------------------------------------------- holding on

  lemma WorkerHolds(s: State, n: string, io: Io)
    requires Inv(s) && Held(s) && n in s.workers
    ensures var s' := Step(s, Work(n, io)); n in s'.workers && !s'.workers[n].pc.AddFinalizer? ==> Finalized(s', n)
  {
    hide Step, Inv, InstanceOk, SpecUpdate;
    var w := s.workers[n];
    var s' := Step(s, Work(n, io));
    WorkEffect(s, n, io);
    WorkerFacts(s, n);
    if w.pc.AddFinalizer? {
      if n in s'.workers {
        SpecCases(s, n, w.mem, io.fault);
        hide SpecUpdate, DropInstance, PutInstance, Inv;
        assert Accepts(s, n, w.mem, io.fault);
        PutInstances(s, n, WithSpec(s.insts[n], w.mem, s.next), n);
      }
    } else if w.pc.RemoveFinalizer? {
      hide Inv, SpecUpdate;
    } else {
      InstanceStays(s, Work(n, io), n);
      hide *;
    }
  }

  lemma HeldStays(s: State, ev: Event)
    requires Inv(s) && Held(s)
    ensures Held(Step(s, ev))
  {
    hide Inv;
    var s' := Step(s, ev);
    forall n | n in s'.workers && !s'.workers[n].pc.AddFinalizer? ensures Finalized(s', n) {
      if ev.Work? && ev.n == n {
        if n in s.workers { WorkerHolds(s, n, ev.io); } else { WorkersStay(s, ev, n); }
      } else if ev == Begin(n) && n !in s.workers {
        hide Inv, Do, EnvDo;
      } else {
        WorkersStay(s, ev, n);
        InstanceStays(s, ev, n);
      }
    }
  }

  // ---------------------------------------------------------------- objects

  lemma KeyIsSlot(key: ObjectKey, n: string)
    requires OwnerName(key.name) == n
    ensures exists k: Slot :: key == SlotKey(k, n)
  {
    var proxy := EndsWith(key.name, PROXY_SUFFIX);
    assert proxy ==> key.name == ProxyName(n);
    var k: Slot := if proxy then if key.kind.Deployment? then 2 else if key.kind.Service? then 3 else 4
                   else if key.kind.Deployment? then 0 else if key.kind.Service? then 1 else 5;
    assert key == SlotKey(k, n);
  }

  /** Only a reconcile of `n` touches the objects of `n`. */
  lemma SlotStays(s: State, ev: Event, n: string, k: Slot)
    requires NamesOk(s) && Fair(s, ev) && !EndsWith(n, PROXY_SUFFIX)
    requires !(ev.Work? && ev.n == n)
    ensures Has(Step(s, ev), k, n) == Has(s, k, n)
  {
    match ev
    case Work(m, io) =>
      if m in s.workers {
        WorkEffect(s, m, io);
        var w := s.workers[m];
        var j := if w.pc.Put? || w.pc.Del? then w.pc.k else 0;
        if SlotKey(j, m) == SlotKey(k, n) { SlotsAreDisjoint(m, n, j, k); }
        hide Step;
      }
    case _ => ObjectsStay(s, ev);
  }

  predicate SlotAfter(s: State, n: string, io: Io, k: Slot)
    requires n in s.workers
  {
    var pc := s.workers[n].pc;
    if !io.fault.Rejected? && pc == Put(k) then true
    else if !io.fault.Rejected? && pc == Del(k) then false
    else Has(s, k, n)
  }

  /** The slots of `n` after one step of its reconcile. */
  lemma OwnSlots(s: State, n: string, io: Io, k: Slot)
    requires n in s.workers && !EndsWith(n, PROXY_SUFFIX)
    ensures Has(Step(s, Work(n, io)), k, n) == SlotAfter(s, n, io, k)
  {
    hide Do;
    WorkEffect(s, n, io);
    var w := s.workers[n];
    var j := if w.pc.Put? || w.pc.Del? then w.pc.k else 0;
    if SlotKey(j, n) == SlotKey(k, n) { SlotsAreDisjoint(n, n, j, k); }
    hide Step;
  }

  lemma OwnedStays(s: State, ev: Event)
    requires Inv(s) && FinalizerInv(s) && Fair(s, ev)
    ensures Owned(Step(s, ev))
  {
    var s' := Step(s, ev);
    forall key | key in s'.objects ensures Finalized(s', OwnerName(key.name)) {
      KeyOwned(s, ev, key);
    }
  }

  /** The last write of a cleanup comes when nothing is left. */
  lemma ReleasedBare(s: State, ev: Event, n: string, k: Slot)
    requires Shape(s, n) && Releasing(s, ev, n)
    ensures !Has(s, k, n)
  {
    assert !Present(s, n)[k];
  }

  lemma OwnerStays(s: State, ev: Event, key: ObjectKey)
    requires Inv(s) && Shaped(s) && key in s.objects && Finalized(s, OwnerName(key.name))
    ensures Finalized(Step(s, ev), OwnerName(key.name))
  {
    var n := OwnerName(key.name);
    if Releasing(s, ev, n) {
      KeyIsSlot(key, n);
      var k: Slot :| key == SlotKey(k, n);
      assert Shape(s, n);
      ReleasedBare(s, ev, n, k);
    } else {
      InstanceStays(s, ev, n);
    }
    hide *;
  }

  lemma KeyOwned(s: State, ev: Event, key: ObjectKey)
    requires Inv(s) && FinalizerInv(s) && Fair(s, ev) && key in Step(s, ev).objects
    ensures Finalized(Step(s, ev), OwnerName(key.name))
  {
    hide Inv;
    if key in s.objects {
      OwnerStays(s, ev, key);
    } else {
      NewObject(s, ev, key);
      SlotOwner(s.workers[ev.n].pc.k, ev.n);
      hide Step, Inv, EndsWith, OwnerName, SlotKey;
      InstanceStays(s, ev, ev.n);
    }
  }

  lemma NewObject(s: State, ev: Event, key: ObjectKey)
    requires key in Step(s, ev).objects && key !in s.objects
    ensures ev.Work? && ev.n in s.workers && s.workers[ev.n].pc.Put? && key == SlotKey(s.workers[ev.n].pc.k, ev.n)
  {
    match ev
    case Work(m, io) =>
      if m in s.workers {
        WorkEffect(s, m, io);
        hide Step;
      }
    case _ => ObjectsStay(s, ev);
  }

  lemma Absent(s: State, n: string)
    requires Owned(s) && !Finalized(s, n) && !EndsWith(n, PROXY_SUFFIX)
    ensures forall k: Slot :: !Has(s, k, n)
  {
    forall k: Slot ensures !Has(s, k, n) {
      SlotOwner(k, n);
    }
  }

  predicate NextPcOk(pc: Pc, had: bool, done: bool, next: Option<Pc>) {
    match pc
    case Del(k) =>
      next == if k == 5 then Some(RemoveFinalizer) else Some(Del(if !(done && had) && 2 <= k then 5 else k + 1))
    case RemoveFinalizer => next.None?
    case _ =>
      next.Some? ==>
        && !next.value.Del? && !next.value.RemoveFinalizer?
        && (next.value.Put? ==>
              next.value.k == 0 || (pc.Put? && (next.value.k == 5 || (done && next.value.k == pc.k + 1))))
  }

  lemma ShapeGoesOn(pc: Pc, h: seq<bool>, io: Io, next: Option<Pc>, h': seq<bool>)
    requires |h| == |h'| == 6 && ShapeAt(Some(pc), h) && (pc.Del? ==> io.fault.Done?)
    requires NextPcOk(pc, pc.Del? && h[pc.k], io.fault.Done?, next)
    requires forall k: Slot :: h'[k] == if !io.fault.Rejected? && pc == Put(k) then true
                                        else if !io.fault.Rejected? && pc == Del(k) then false else h[k]
    ensures ShapeAt(next, h')
  {
    assert h'[0] == h'[0] && h'[1] == h'[1] && h'[2] == h'[2] && h'[3] == h'[3] && h'[4] == h'[4] && h'[5] == h'[5];
  }

  lemma OwnShape(s: State, n: string, io: Io)
    requires NamesOk(s) && Shape(s, n) && Fair(s, Work(n, io)) && n in s.workers
    ensures Shape(Step(s, Work(n, io)), n)
  {
    hide Step, Do;
    var s' := Step(s, Work(n, io));
    var w := s.workers[n];
    WorkEffect(s, n, io);
    forall k: Slot ensures Present(s', n)[k] == SlotAfter(s, n, io, k) {
      OwnSlots(s, n, io, k);
    }
    NextPc(s, n, w, io);
    hide Step, Has, Do, ShapeAt, NextPcOk, Present;
    ShapeGoesOn(w.pc, Present(s, n), io, PcOf(s', n), Present(s', n));
  }

  /** How a worker moves through its puts and deletes. */
  lemma NextPc(s: State, n: string, w: Worker, io: Io)
    ensures var o := Do(s, n, w, io).1;
      NextPcOk(w.pc, w.pc.Del? && Has(s, w.pc.k, n), io.fault.Done?, if o.Some? then Some(o.value.pc) else None)
  {
    hide StatusUpdate, SpecUpdate, Accepts, UpdateResult, SlotKey, SlotObject, HasTag;
  }

  lemma NewShape(s: State, ev: Event, n: string)
    requires FinalizerInv(s) && Fair(s, ev) && n in Step(s, ev).insts && n !in s.insts && !EndsWith(n, PROXY_SUFFIX)
    ensures Shape(Step(s, ev), n)
  {
    var s' := Step(s, ev);
    NewInstances(s, ev, n);
    Absent(s, n);
    forall k: Slot ensures !Present(s', n)[k] { SlotStays(s, ev, n, k); }
    if n in s'.workers { WorkersStay(s, ev, n); }
    hide Step, Has, Present;
  }

  lemma OtherShape(s: State, ev: Event, n: string)
    requires NamesOk(s) && Shape(s, n) && Fair(s, ev) && n in s.insts && !EndsWith(n, PROXY_SUFFIX)
    requires ev.Work? && ev.n == n ==> n !in s.workers
    ensures Shape(Step(s, ev), n)
  {
    var s' := Step(s, ev);
    if !(ev.Work? && ev.n == n) {
      forall k: Slot ensures Present(s', n)[k] == Present(s, n)[k] { SlotStays(s, ev, n, k); }
      assert Present(s', n) == Present(s, n);
    }
    hide NamesOk, Has, Present;
    SameShape(s, ev, n);
  }

  lemma ShapeStays(s: State, ev: Event, n: string)
    requires FinalizerInv(s) && Fair(s, ev) && n in Step(s, ev).insts && !EndsWith(n, PROXY_SUFFIX)
    ensures Shape(Step(s, ev), n)
  {
    if n !in s.insts {
      NewShape(s, ev, n);
    } else {
      assert Shape(s, n);
      hide Step, Shape, EndsWith;
      if ev.Work? && ev.n == n && n in s.workers { OwnShape(s, n, ev.io); } else { OtherShape(s, ev, n); }
    }
  }

  lemma SameShape(s: State, ev: Event, n: string)
    requires Shape(s, n) && Fair(s, ev) && n in s.insts
    requires ev.Work? && ev.n == n ==> n !in s.workers
    requires Present(Step(s, ev), n) == Present(s, n)
    ensures Shape(Step(s, ev), n)
  {
    var s' := Step(s, ev);
    hide Do, EnvDo, Has, Present;
    if ev == Begin(n) && n !in s.workers {
    } else if n in s'.workers {
      WorkersStay(s, ev, n);
      hide Step;
    } else if n in s.workers {
      WorkerGone(s, ev, n);
      hide Step;
    } else {
      hide Step;
    }
  }

  lemma StepFinalizer(s: State, ev: Event)
    requires Inv(s) && FinalizerInv(s) && Fair(s, ev)
    ensures FinalizerInv(Step(s, ev))
  {
    NamesStay(s, ev);
    HeldStays(s, ev);
    OwnedStays(s, ev);
    forall n | n in Step(s, ev).insts ensures Shape(Step(s, ev), n) {
      ShapeStays(s, ev, n);
    }
  }

  lemma {:induction false} RunFinalizer(now: nat, evs: seq<Event>)
    requires FairRun(Init(now), evs)
    ensures FinalizerInv(Run(Init(now), evs))
  {
    if evs != [] {
      var front := evs[..|evs| - 1];
      assert forall i | 0 <= i < |front| :: front[..i] == evs[..i];
      RunFinalizer(now, front);
      RunOk(now, front);
      StepFinalizer(Run(Init(now), front), evs[|evs| - 1]);
    }
  }

  lemma OwnedAtEnd(now: nat, evs: seq<Event>, n: string, k: Slot)
    requires FairRun(Init(now), evs) && !EndsWith(n, PROXY_SUFFIX)
    requires SlotKey(k, n) in Run(Init(now), evs).objects
    ensures n in Run(Init(now), evs).insts && Run(Init(now), evs).insts[n].finalizer
  {
    RunFinalizer(now, evs);
    SlotOwner(k, n);
    assert Finalized(Run(Init(now), evs), OwnerName(SlotKey(k, n).name));
  }
}
