/** The order in which the stored phase of an instance can change. */
module Phases {
  import opened Naming
  import opened Cluster
  import opened Safety
  import opened Effects

  predicate MayFollow(p: Phase, q: Phase) {
    match q
    case NoPhase => false
    case Pending => true
    case Building => p == Pending
    case Deploying => p == Pending || p == Building
    case Running => p == Deploying
    case Failed => p == Pending || p == Building || p == Deploying
    case Stopped => false
  }

  /** Instance `m`, if present before and after, keeps its phase or moves along the order. */
  predicate Ordered(s: State, s': State, m: string) {
    m in s.insts && m in s'.insts ==>
      s'.insts[m].phase == s.insts[m].phase || MayFollow(s.insts[m].phase, s'.insts[m].phase)
  }

  /** A status write by a copy that is linked to the store moves the phase from the copy's base. */
  lemma StatusOrdered(s: State, n: string, base: Instance, mem: Instance, fault: Fault, m: string)
    requires Linked(s, n, base) && mem.version == base.version
    requires mem.phase == base.phase || MayFollow(base.phase, mem.phase)
    ensures Ordered(s, StatusUpdate(s, n, mem, fault), m)
  {
  }

  lemma SpecOrdered(s: State, n: string, mem: Instance, fault: Fault, m: string)
    ensures Ordered(s, SpecUpdate(s, n, mem, fault), m)
  {
    hide SpecUpdate, PutInstance, DropInstance, MayFollow;
    SpecCases(s, n, mem, fault);
    if Accepts(s, n, mem, fault) {
      PutInstances(s, n, WithSpec(s.insts[n], mem, s.next), m);
      DropInstances(s, n, m);
    }
  }

  lemma DeleteOrdered(s: State, n: string, m: string)
    requires n in s.insts
    ensures Ordered(s, RequestDelete(s, n), m)
  {
    if m in RequestDelete(s, n).insts { DeleteInstances(s, n, m); }
  }

  lemma WorkOrdered(s: State, n: string, io: Io, m: string)
    requires Inv(s) && n in s.workers
    ensures Ordered(s, Step(s, Work(n, io)), m)
  {
    hide Inv, Step, Do, Written, StatusUpdate, SpecUpdate, MayFollow;
    var w := s.workers[n];
    WorkEffect(s, n, io);
    WorkerFacts(s, n);
    WrittenCases(s, n, w, io);
    if WritesStatus(w.pc) {
      StatusMayFollow(w);
      StatusOrdered(s, n, w.base, w.mem, io.fault, m);
    } else if WritesSpec(w.pc) {
      SpecOrdered(s, n, w.mem, io.fault, m);
    }
  }

  lemma StatusMayFollow(w: Worker)
    requires AtPc(w) && WritesStatus(w.pc)
    ensures w.mem.version == w.base.version && (w.mem.phase == w.base.phase || MayFollow(w.base.phase, w.mem.phase))
  {
  }

  lemma EnvWorkOrdered(s: State, e: string, io: Io, m: string)
    requires e in s.envWorkers
    ensures Ordered(s, Step(s, EnvWork(e, io)), m)
  {
    hide Step, EnvDo, SpecUpdate, RequestDelete, InstancesAfter, Cluster.CreateInstance, Merged, MayFollow;
    var w := s.envWorkers[e];
    EnvWorkEffect(s, e, io);
    AfterCases(s, w, io);
    if Updates(w) {
      SpecOrdered(s, w.pc.todo[0].name, Merged(w.pc.existing.value, w.pc.todo[0]), io.fault, m);
    } else if Creates(s, w, io) {
      CreateOrdered(s, w.pc.todo[0], m);
    } else if Deletes(s, w, io) {
      DeleteOrdered(s, w.pc.names[0], m);
    }
  }

  lemma CreateOrdered(s: State, d: Draft, m: string)
    requires d.name !in s.insts
    ensures Ordered(s, CreateInstance(s, d), m)
  {
  }

  lemma HandlerOrdered(s: State, id: nat, fault: Fault, m: string)
    requires Inv(s)
    ensures Ordered(s, Step(s, HandlerWrite(id, fault)), m)
  {
    hide Inv;
    if id in s.handlers {
      HandlerFacts(s, id);
      hide Inv;
      StatusOrdered(s, s.handlers[id].name, s.handlers[id].copy, s.handlers[id].copy.(phase := Pending), fault, m);
    }
  }

  lemma StepOrdered(s: State, ev: Event, m: string)
    requires Inv(s)
    ensures Ordered(s, Step(s, ev), m)
  {
    hide Inv, Do, EnvDo;
    match ev
    case Work(n, io) => if n in s.workers { WorkOrdered(s, n, io, m); }
    case EnvWork(e, io) => if e in s.envWorkers { EnvWorkOrdered(s, e, io, m); }
    case HandlerWrite(id, fault) => HandlerOrdered(s, id, fault, m);
    case DeleteInstance(n) => if n in s.insts { DeleteOrdered(s, n, m); }
    case EditInstance(n, desired) =>
    case _ => OthersLeaveInstances(s, ev);
  }

  lemma OrderAtEnd(now: nat, evs: seq<Event>, ev: Event, m: string)
    ensures Ordered(Run(Init(now), evs), Step(Run(Init(now), evs), ev), m)
  {
    RunOk(now, evs);
    StepOrdered(Run(Init(now), evs), ev, m);
  }
}
