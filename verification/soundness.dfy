/** Every stored instance is sound: it has a desired phase, and if it is being deleted, a finalizer. */
module Soundness {
  import opened Naming
  import opened Cluster
  import opened Safety
  import opened Effects
  import opened Saving

  /** The one event from outside that takes an instance its desired phase. */
  predicate Empties(ev: Event) { ev.EditInstance? && ev.desired == "" }

  predicate NeverEmptied(evs: seq<Event>) { forall i | 0 <= i < |evs| :: !Empties(evs[i]) }

  predicate Wanted(s: State, n: string) { n in s.insts ==> s.insts[n].desired != "" }

  lemma StatusWanted(s: State, n: string, mem: Instance, fault: Fault, m: string)
    requires Wanted(s, m)
    ensures Wanted(StatusUpdate(s, n, mem, fault), m)
  {
    hide PutInstance;
    if Accepts(s, n, mem, fault) { PutInstances(s, n, WithStatus(s.insts[n], mem, s.next), m); }
  }

  /** An accepted write is based on the stored version, so it gives back what it was based on. */
  lemma SpecWanted(s: State, n: string, base: Instance, mem: Instance, fault: Fault, m: string)
    requires Wanted(s, m) && Linked(s, n, base) && mem.version == base.version
    requires mem.desired == base.desired || mem.desired != ""
    ensures Wanted(SpecUpdate(s, n, mem, fault), m)
  {
    SpecCases(s, n, mem, fault);
    hide SpecUpdate, DropInstance, PutInstance;
    if Accepts(s, n, mem, fault) {
      DropInstances(s, n, m);
      PutInstances(s, n, WithSpec(s.insts[n], mem, s.next), m);
    }
  }

  lemma SameDesired(w: Worker)
    requires AtPc(w)
    ensures w.mem.desired == w.base.desired && w.mem.version == w.base.version
  {
  }

  lemma WrittenWanted(s: State, n: string, w: Worker, io: Io, m: string)
    requires Wanted(s, m) && AtPc(w) && Linked(s, n, w.base)
    ensures Wanted(Written(s, n, w, io), m)
  {
    hide StatusUpdate, SpecUpdate, AtPc;
    SameDesired(w);
    WrittenCases(s, n, w, io);
    hide Written;
    if WritesStatus(w.pc) {
      StatusWanted(s, n, w.mem, io.fault, m);
    } else if WritesSpec(w.pc) {
      SpecWanted(s, n, w.base, w.mem, io.fault, m);
    }
  }

  lemma DeleteWanted(s: State, n: string, m: string)
    requires n in s.insts && Wanted(s, m)
    ensures Wanted(RequestDelete(s, n), m)
  {
    DeleteCases(s, n);
    hide RequestDelete, DropInstance, PutInstance;
    DropInstances(s, n, m);
    PutInstances(s, n, s.insts[n].(deleting := true, version := s.next), m);
  }

  lemma CreateWanted(s: State, d: Draft, m: string)
    requires Wanted(s, m)
    ensures Wanted(CreateInstance(s, d), m)
  {
  }

  lemma AfterWanted(s: State, w: EnvWorker, io: Io, m: string)
    requires Wanted(s, m) && EnvWorkerOk(s, w)
    ensures Wanted(InstancesAfter(s, w, io), m)
  {
    AfterCases(s, w, io);
    hide InstancesAfter, SpecUpdate, RequestDelete, CreateInstance, Wanted, InstanceOk;
    if Updates(w) {
      var d := w.pc.todo[0];
      SpecWanted(s, d.name, w.pc.existing.value, Merged(w.pc.existing.value, d), io.fault, m);
    } else if Creates(s, w, io) {
      CreateWanted(s, w.pc.todo[0], m);
    } else if Deletes(s, w, io) {
      DeleteWanted(s, w.pc.names[0], m);
    }
  }

  lemma WorkWanted(s: State, n: string, io: Io, m: string)
    requires Inv(s) && n in s.workers && Wanted(s, m)
    ensures Wanted(Step(s, Work(n, io)), m)
  {
    hide Step, Inv, Written, AtPc, InstanceOk;
    WorkEffect(s, n, io);
    WorkerFacts(s, n);
    WrittenWanted(s, n, s.workers[n], io, m);
  }

  lemma EnvWorkWanted(s: State, e: string, io: Io, m: string)
    requires Inv(s) && e in s.envWorkers && Wanted(s, m)
    ensures Wanted(Step(s, EnvWork(e, io)), m)
  {
    hide Step, Inv, InstancesAfter, EnvsAfter, EnvWorkerOk;
    EnvWorkEffect(s, e, io);
    EnvWorkerFacts(s, e);
    AfterWanted(s, s.envWorkers[e], io, m);
  }

  lemma OutsideWanted(s: State, ev: Event, m: string)
    requires Wanted(s, m) && !Empties(ev) && (ev.HandlerWrite? || ev.DeleteInstance? || ev.EditInstance?)
    ensures Wanted(Step(s, ev), m)
  {
    hide Do, EnvDo, StatusUpdate, RequestDelete, PutInstance;
    match ev
    case HandlerWrite(id, fault) =>
      if id in s.handlers { StatusWanted(s, s.handlers[id].name, s.handlers[id].copy.(phase := Pending), fault, m); }
    case DeleteInstance(n) => if n in s.insts { DeleteWanted(s, n, m); }
    case EditInstance(n, desired) =>
      if n in s.insts { PutInstances(s, n, s.insts[n].(desired := desired, version := s.next), m); }
  }

  lemma StepWanted(s: State, ev: Event, m: string)
    requires Inv(s) && Wanted(s, m) && !Empties(ev)
    ensures Wanted(Step(s, ev), m)
  {
    hide Inv, Step, Do, EnvDo, Wanted;
    if ev.Work? && ev.n in s.workers {
      WorkWanted(s, ev.n, ev.io, m);
    } else if ev.EnvWork? && ev.e in s.envWorkers {
      EnvWorkWanted(s, ev.e, ev.io, m);
    } else if ev.HandlerWrite? || ev.DeleteInstance? || ev.EditInstance? {
      OutsideWanted(s, ev, m);
    } else {
      NobodyWorks(s, ev);
      SameWanted(s, Step(s, ev), m);
    }
  }

  lemma NobodyWorks(s: State, ev: Event)
    requires ev.Work? ==> ev.n !in s.workers
    requires ev.EnvWork? ==> ev.e !in s.envWorkers
    requires !ev.HandlerWrite? && !ev.DeleteInstance? && !ev.EditInstance?
    ensures Step(s, ev).insts == s.insts
  {
    hide Do, EnvDo;
    if !ev.Work? && !ev.EnvWork? {
      OthersLeaveInstances(s, ev);
      hide Step;
    }
  }

  lemma SameWanted(s: State, t: State, m: string)
    requires Wanted(s, m) && s.insts == t.insts
    ensures Wanted(t, m)
  {
  }

  lemma StepMarked(s: State, ev: Event, m: string)
    requires m in s.insts ==> MarkedOk(s.insts[m])
    ensures m in Step(s, ev).insts ==> MarkedOk(Step(s, ev).insts[m])
  {
    hide Step;
    if m in Step(s, ev).insts {
      if m in s.insts { MarkedStays(s, ev, m); } else { NewInstances(s, ev, m); }
    }
  }

  /** On every run: whoever marks an instance as being deleted, it has a finalizer, or it is gone. */
  lemma {:induction false} MarkedAtEnd(now: nat, evs: seq<Event>, m: string)
    requires m in Run(Init(now), evs).insts
    ensures MarkedOk(Run(Init(now), evs).insts[m])
  {
    hide Step, MarkedOk;
    if evs != [] {
      var front := evs[..|evs| - 1];
      if m in Run(Init(now), front).insts { MarkedAtEnd(now, front, m); }
      StepMarked(Run(Init(now), front), evs[|evs| - 1], m);
    }
  }

  lemma {:induction false} WantedAtEnd(now: nat, evs: seq<Event>, m: string)
    requires NeverEmptied(evs)
    ensures Wanted(Run(Init(now), evs), m)
  {
    hide Step, Inv;
    if evs != [] {
      var front := evs[..|evs| - 1];
      WantedAtEnd(now, front, m);
      RunOk(now, front);
      StepWanted(Run(Init(now), front), evs[|evs| - 1], m);
    }
  }

  /** On every run on which nobody empties a desired phase, all stored instances are sound. */
  lemma SoundAtEnd(now: nat, evs: seq<Event>)
    requires NeverEmptied(evs)
    ensures AllSound(Run(Init(now), evs))
  {
    hide Run, Init, NeverEmptied;
    var s := Run(Init(now), evs);
    forall n | n in s.insts ensures Sound(s.insts[n]) {
      MarkedAtEnd(now, evs, n);
      WantedAtEnd(now, evs, n);
    }
  }
}
